/**
 * The Core Data managed object model the Core Data backend builds in code
 * (`createManagedObjectModel`): three entities, their attributes with
 * type, optionality and default value, and a uniqueness constraint on
 * `id`. The schema validator introspects this model.
 */
module CoreDataModel {
  import opened Primitives

  /** `NSAttributeType`. */
  datatype AttributeType =
    | UndefinedAttributeType
    | Integer16AttributeType
    | Integer32AttributeType
    | Integer64AttributeType
    | DecimalAttributeType
    | DoubleAttributeType
    | FloatAttributeType
    | StringAttributeType
    | BooleanAttributeType
    | DateAttributeType
    | BinaryDataAttributeType
    | UUIDAttributeType
    | URIAttributeType
    | TransformableAttributeType
    | ObjectIDAttributeType
    | CompositeAttributeType

  /** The literal default values the model uses. */
  datatype AttributeValue = IntegerValue(i: int) | BooleanValue(b: bool) | TextValue(s: string)

  /**
   * `"\(value)"`: how a default value prints once stored. The attribute's
   * `defaultValue` holds a Bool as an `NSNumber`, which prints as 1 or 0.
   */
  function Describe(v: AttributeValue): (r: string)
    ensures v.BooleanValue? ==> r == IntToString(if v.b then 1 else 0)
    ensures v.IntegerValue? ==> r == IntToString(v.i)
  {
    match v
    case IntegerValue(i) => IntToString(i)
    case BooleanValue(b) => if b then "1" else "0"
    case TextValue(s) => s
  }

  /** `NSAttributeDescription`. */
  datatype AttributeDescription = AttributeDescription(
    name: string,
    attributeType: AttributeType,
    isOptional: bool,
    defaultValue: Option<AttributeValue>)

  /** `NSEntityDescription`: the model declares attributes only, no relationships. */
  datatype EntityDescription = EntityDescription(
    name: string,
    managedObjectClassName: string,
    properties: seq<AttributeDescription>,
    uniquenessConstraints: seq<seq<string>>)

  datatype ManagedObjectModel = ManagedObjectModel(entities: seq<EntityDescription>)

  /** `createAttribute(name:type:optional:defaultValue:)`. */
  function CreateAttribute(name: string, attributeType: AttributeType, optional: bool,
                           defaultValue: Option<AttributeValue> := None): AttributeDescription
  {
    AttributeDescription(name, attributeType, optional, defaultValue)
  }

  function CredentialAttributes(): seq<AttributeDescription> {
    [ CreateAttribute("id", StringAttributeType, false),
      CreateAttribute("rpId", StringAttributeType, false),
      CreateAttribute("userHandle", BinaryDataAttributeType, false),
      CreateAttribute("publicKey", BinaryDataAttributeType, false),
      CreateAttribute("privateKeyRef", StringAttributeType, true),
      CreateAttribute("createdAt", DateAttributeType, false),
      CreateAttribute("lastUsed", DateAttributeType, true),
      CreateAttribute("signCount", Integer32AttributeType, false, Some(IntegerValue(0))),
      CreateAttribute("isResident", BooleanAttributeType, false, Some(BooleanValue(false))),
      CreateAttribute("userDisplayName", StringAttributeType, true),
      CreateAttribute("credentialType", StringAttributeType, false, Some(TextValue("public-key"))) ]
  }

  /**
   * The `ServerCredential` attributes. The `emoji` default is a one-emoji
   * string in the source; its exact scalar is not part of this model.
   */
  function ServerCredentialAttributes(emojiDefault: string): seq<AttributeDescription> {
    [ CreateAttribute("id", StringAttributeType, false),
      CreateAttribute("credentialId", StringAttributeType, false),
      CreateAttribute("publicKeyJWK", StringAttributeType, false),
      CreateAttribute("signCount", Integer32AttributeType, false, Some(IntegerValue(0))),
      CreateAttribute("isDiscoverable", BooleanAttributeType, false, Some(BooleanValue(false))),
      CreateAttribute("createdAt", DateAttributeType, false),
      CreateAttribute("lastVerified", DateAttributeType, true),
      CreateAttribute("rpId", StringAttributeType, false),
      CreateAttribute("userHandle", BinaryDataAttributeType, false),
      CreateAttribute("algorithm", Integer32AttributeType, false, Some(IntegerValue(-7))),
      CreateAttribute("protocolVersion", StringAttributeType, false, Some(TextValue("fido2"))),
      CreateAttribute("attestationFormat", StringAttributeType, true),
      CreateAttribute("aaguid", StringAttributeType, true),
      CreateAttribute("backupEligible", BooleanAttributeType, false, Some(BooleanValue(false))),
      CreateAttribute("backupState", BooleanAttributeType, false, Some(BooleanValue(false))),
      CreateAttribute("emoji", StringAttributeType, false, Some(TextValue(emojiDefault))),
      CreateAttribute("lastLoginIP", StringAttributeType, true),
      CreateAttribute("isEnabled", BooleanAttributeType, false, Some(BooleanValue(true))),
      CreateAttribute("isAdmin", BooleanAttributeType, false, Some(BooleanValue(false))),
      CreateAttribute("userNumber", Integer32AttributeType, false, Some(IntegerValue(0))) ]
  }

  function VirtualKeyAttributes(): seq<AttributeDescription> {
    [ CreateAttribute("id", StringAttributeType, false),
      CreateAttribute("name", StringAttributeType, false),
      CreateAttribute("encryptedPrivateKey", BinaryDataAttributeType, false),
      CreateAttribute("publicKey", BinaryDataAttributeType, false),
      CreateAttribute("algorithm", StringAttributeType, false),
      CreateAttribute("keySize", Integer32AttributeType, false),
      CreateAttribute("createdAt", DateAttributeType, false),
      CreateAttribute("lastUsed", DateAttributeType, true),
      CreateAttribute("isActive", BooleanAttributeType, false, Some(BooleanValue(true))),
      CreateAttribute("kdfAlgorithm", StringAttributeType, true),
      CreateAttribute("kdfIterations", Integer32AttributeType, true),
      CreateAttribute("kdfSalt", BinaryDataAttributeType, true),
      CreateAttribute("kdfKeyLength", Integer32AttributeType, true) ]
  }

  /** `createManagedObjectModel()`: the three entities, each unique on `id`. */
  function CreateManagedObjectModel(emojiDefault: string): (m: ManagedObjectModel)
    ensures |m.entities| == 3
    ensures m.entities[0].name == "WebAuthnClientCredential"
    ensures m.entities[1].name == "ServerCredential"
    ensures m.entities[2].name == "VirtualKey"
    ensures forall e :: e in m.entities ==> e.uniquenessConstraints == [["id"]]
    ensures |m.entities[0].properties| == 11
    ensures |m.entities[1].properties| == 20
    ensures |m.entities[2].properties| == 13
  {
    ManagedObjectModel([
      EntityDescription("WebAuthnClientCredential", "CDWebAuthnCredential", CredentialAttributes(), [["id"]]),
      EntityDescription("ServerCredential", "CDServerCredential", ServerCredentialAttributes(emojiDefault), [["id"]]),
      EntityDescription("VirtualKey", "CDVirtualKey", VirtualKeyAttributes(), [["id"]])])
  }
}
