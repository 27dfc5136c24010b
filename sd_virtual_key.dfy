/**
 * The SwiftData model object for a virtual key. The key-derivation
 * parameters are four independently optional fields.
 */
module SDVirtualKeyEntity {
  import opened Primitives

  /** The attributes marked unique. */
  const UniqueAttributes: seq<string> := ["id"]

  class SDVirtualKey {
    var id: string
    var name: string
    var encryptedPrivateKey: Bytes
    var publicKey: Bytes
    var algorithm: string
    var keySize: int
    var createdAt: Date
    var lastUsed: Option<Date>
    var isActive: bool
    var kdfAlgorithm: Option<string>
    var kdfIterations: Option<int>
    var kdfSalt: Option<Bytes>
    var kdfKeyLength: Option<int>

    /** The initializer: every field from its argument, with the declared defaults. */
    constructor (id: string, name: string, encryptedPrivateKey: Bytes, publicKey: Bytes, algorithm: string,
                 keySize: int, createdAt: Date, lastUsed: Option<Date> := None, isActive: bool := true,
                 kdfAlgorithm: Option<string> := None, kdfIterations: Option<int> := None,
                 kdfSalt: Option<Bytes> := None, kdfKeyLength: Option<int> := None)
      ensures this.id == id && this.name == name && this.encryptedPrivateKey == encryptedPrivateKey
      ensures this.publicKey == publicKey && this.algorithm == algorithm && this.keySize == keySize
      ensures this.createdAt == createdAt && this.lastUsed == lastUsed && this.isActive == isActive
      ensures this.kdfAlgorithm == kdfAlgorithm && this.kdfIterations == kdfIterations
      ensures this.kdfSalt == kdfSalt && this.kdfKeyLength == kdfKeyLength
    {
      this.id := id;
      this.name := name;
      this.encryptedPrivateKey := encryptedPrivateKey;
      this.publicKey := publicKey;
      this.algorithm := algorithm;
      this.keySize := keySize;
      this.createdAt := createdAt;
      this.lastUsed := lastUsed;
      this.isActive := isActive;
      this.kdfAlgorithm := kdfAlgorithm;
      this.kdfIterations := kdfIterations;
      this.kdfSalt := kdfSalt;
      this.kdfKeyLength := kdfKeyLength;
    }
  }
}
