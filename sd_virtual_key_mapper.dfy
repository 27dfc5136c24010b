/**
 * Conversion between the virtual-key value and its SwiftData model object.
 * The key-derivation info is split into four optional fields and rebuilt
 * whenever all four are present, with no check on the integers.
 */
module SDVirtualKeyMapper {
  import opened Primitives
  import opened VirtualKeyModel
  import opened SDVirtualKeyEntity

  /** The four optional fields `toSwiftData` writes for the info: all absent, or all present. */
  function SplitKeyDerivation(info: Option<KeyDerivationInfo>)
    : (fields: (Option<string>, Option<int>, Option<Bytes>, Option<int>))
    ensures info.None? <==> fields.0.None? && fields.1.None? && fields.2.None? && fields.3.None?
    ensures info.Some? <==> fields.0.Some? && fields.1.Some? && fields.2.Some? && fields.3.Some?
  {
    if info.Some? then
      (Some(info.value.algorithm), Some(info.value.iterations), Some(info.value.salt), Some(info.value.keyLength))
    else
      (None, None, None, None)
  }

  /** The optional binding in `fromSwiftData`: info is rebuilt iff all four fields are present. */
  function KeyDerivationFromFields(algorithm: Option<string>, iterations: Option<int>, salt: Option<Bytes>,
                                   keyLength: Option<int>): (r: Option<KeyDerivationInfo>)
    ensures r.Some? <==> algorithm.Some? && iterations.Some? && salt.Some? && keyLength.Some?
    ensures r.Some? ==> r.value == KeyDerivationInfo(algorithm.value, iterations.value, salt.value, keyLength.value)
  {
    if algorithm.Some? && iterations.Some? && salt.Some? && keyLength.Some? then
      Some(KeyDerivationInfo(algorithm.value, iterations.value, salt.value, keyLength.value))
    else
      None
  }

  /** Splitting and rebuilding gives back any info, absent or present, whatever its integers. */
  lemma KeyDerivationFieldsRoundTrip(info: Option<KeyDerivationInfo>)
    ensures var f := SplitKeyDerivation(info); KeyDerivationFromFields(f.0, f.1, f.2, f.3) == info
  {
  }

  /** `fromSwiftData`. */
  function FromSwiftData(model: SDVirtualKey): (v: VirtualKeyData)
    reads model
    ensures v.keyDerivationInfo.Some? <==>
      model.kdfAlgorithm.Some? && model.kdfIterations.Some? && model.kdfSalt.Some? && model.kdfKeyLength.Some?
  {
    VirtualKeyData(
      id := model.id,
      name := model.name,
      encryptedPrivateKey := model.encryptedPrivateKey,
      publicKey := model.publicKey,
      algorithm := model.algorithm,
      keySize := model.keySize,
      createdAt := model.createdAt,
      lastUsed := model.lastUsed,
      isActive := model.isActive,
      keyDerivationInfo := KeyDerivationFromFields(model.kdfAlgorithm, model.kdfIterations, model.kdfSalt,
                                                   model.kdfKeyLength))
  }

  /** `toSwiftData`: a new model object that reads back as exactly the key. */
  method ToSwiftData(v: VirtualKeyData) returns (model: SDVirtualKey)
    ensures fresh(model)
    ensures v.keyDerivationInfo.None? ==>
      model.kdfAlgorithm.None? && model.kdfIterations.None? && model.kdfSalt.None? && model.kdfKeyLength.None?
    ensures FromSwiftData(model) == v
  {
    var f := SplitKeyDerivation(v.keyDerivationInfo);
    model := new SDVirtualKey(v.id, v.name, v.encryptedPrivateKey, v.publicKey, v.algorithm, v.keySize,
                              v.createdAt, v.lastUsed, v.isActive, f.0, f.1, f.2, f.3);
    KeyDerivationFieldsRoundTrip(v.keyDerivationInfo);
  }

  /** The model's fields other than `id` hold those of `v`, the info split into its four fields. */
  predicate HoldsFieldsOf(model: SDVirtualKey, v: VirtualKeyData)
    reads model
  {
    var f := SplitKeyDerivation(v.keyDerivationInfo);
    && model.name == v.name && model.encryptedPrivateKey == v.encryptedPrivateKey
    && model.publicKey == v.publicKey && model.algorithm == v.algorithm && model.keySize == v.keySize
    && model.createdAt == v.createdAt && model.lastUsed == v.lastUsed && model.isActive == v.isActive
    && model.kdfAlgorithm == f.0 && model.kdfIterations == f.1 && model.kdfSalt == f.2 && model.kdfKeyLength == f.3
  }

  /** A model holding the fields of `v` reads back as `v` under the model's own id. */
  lemma ReadBackIsValue(model: SDVirtualKey, v: VirtualKeyData)
    requires HoldsFieldsOf(model, v)
    ensures FromSwiftData(model) == v.(id := model.id)
  {
    KeyDerivationFieldsRoundTrip(v.keyDerivationInfo);
  }

  /** `updateSwiftData`: every field but `id` overwritten, `createdAt` included; absent info clears all four fields. */
  method UpdateSwiftData(model: SDVirtualKey, v: VirtualKeyData)
    modifies model
    ensures model.id == old(model.id)
    ensures v.keyDerivationInfo.None? ==>
      model.kdfAlgorithm.None? && model.kdfIterations.None? && model.kdfSalt.None? && model.kdfKeyLength.None?
    ensures FromSwiftData(model) == v.(id := old(model.id))
  {
    WriteKeyFields(model, v);
    WriteUsageFields(model, v);
    ReadBackIsValue(model, v);
  }

  /** The first six fields `updateSwiftData` assigns. */
  method WriteKeyFields(model: SDVirtualKey, v: VirtualKeyData)
    modifies model`name, model`encryptedPrivateKey, model`publicKey, model`algorithm, model`keySize, model`createdAt
    ensures model.name == v.name && model.encryptedPrivateKey == v.encryptedPrivateKey
    ensures model.publicKey == v.publicKey && model.algorithm == v.algorithm && model.keySize == v.keySize
    ensures model.createdAt == v.createdAt
  {
    model.name := v.name;
    model.encryptedPrivateKey := v.encryptedPrivateKey;
    model.publicKey := v.publicKey;
    model.algorithm := v.algorithm;
    model.keySize := v.keySize;
    model.createdAt := v.createdAt;
  }

  /** The usage fields and the four key-derivation fields. */
  method WriteUsageFields(model: SDVirtualKey, v: VirtualKeyData)
    modifies model`lastUsed, model`isActive, model`kdfAlgorithm, model`kdfIterations, model`kdfSalt, model`kdfKeyLength
    ensures model.lastUsed == v.lastUsed && model.isActive == v.isActive
    ensures var f := SplitKeyDerivation(v.keyDerivationInfo);
      model.kdfAlgorithm == f.0 && model.kdfIterations == f.1 && model.kdfSalt == f.2 && model.kdfKeyLength == f.3
  {
    var f := SplitKeyDerivation(v.keyDerivationInfo);
    model.lastUsed := v.lastUsed;
    model.isActive := v.isActive;
    model.kdfAlgorithm := f.0;
    model.kdfIterations := f.1;
    model.kdfSalt := f.2;
    model.kdfKeyLength := f.3;
  }
}
