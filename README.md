# DogTagStorage in Dafny

DogTagStorage is a storage layer for three kinds of credential record:
WebAuthn client credentials, server credentials and virtual keys. The
records can sit behind a Core Data backend, a SwiftData backend, or an
in-memory mock. This project models that layer and proves what it
promises. Each Swift source file becomes one Dafny module.

- **Value records.** `CredentialData`, `ServerCredentialData` and
  `VirtualKeyData` are datatypes. Their defaults and copy-with helpers are
  functions, with lemmas saying which fields each helper changes.
- **Native rows.** The Core Data managed objects (`CD*`) and the SwiftData
  models (`SD*`) are classes whose constructors set the same defaults as the
  Swift initialisers. Core Data's `Int32` attributes are a bounded newtype.
  - The six mappers convert value records to rows and back, and update rows
    in place.
  - Lemmas state each round trip: when it is exact, and what comes back when
    it is not.
- **Fetch requests.** The Core Data fetch builders produce a `FetchRequest`
  value: a filter, sort descriptors and a limit. It runs against a
  multiset of records.
- **Storage managers.** Each manager is a class holding one id→row map per
  kind of record; that map stands in for the engine's context. The methods
  state the new maps, the error each failure raises, and the order of every
  list they return.
- **Factory and mock.** The factory is a class with a one-slot cache keyed
  by configuration equality. The mock manager is a class over three maps.
- **Schema validator.** Schemas are datatypes, and the canonical schema is
  data. The two comparators are methods specified by multisets of issues
  or records, because the order of their output comes from iterating a
  Swift `Set`. The Core Data model is introspected from the attribute list
  that `createManagedObjectModel` declares.

The two backends differ in ways the contracts state:

- Core Data stores a missing `userNumber` as 0 and reads 0 back as none.
  It writes missing backup flags as `false`. SwiftData keeps all three as
  optional values.
- Core Data rebuilds key-derivation info only when iterations and key
  length are positive. SwiftData rebuilds it whenever all four fields are
  present.
- The Core Data server-credential update keeps the stored `createdAt`; the
  SwiftData update overwrites it.
- Core Data `save` inserts without looking up the id. SwiftData `save`
  updates the row with that id or inserts one.
- SwiftData `update` is a save, so an unknown id is inserted rather than
  reported as not found. Core Data `update` reports `notFound`.
- Core Data orders active virtual keys by `lastUsed`, newest first.
  SwiftData orders them by `createdAt`, newest first.

## Model

| member | source | states |
|---|---|---|
| StorageProtocol.FromRawValue | Sources/DogTagStorage/Protocols/StorageManager.swift:6-10 | a recognised raw value maps back to a backend whose raw value it is |
| StorageProtocol.RawValueRoundTrip | Sources/DogTagStorage/Protocols/StorageManager.swift:6-10 | every backend type is recovered from its raw value, so the three raw values are distinct |
| StorageProtocol.ValidSchema | Sources/DogTagStorage/Protocols/StorageManager.swift:42-52 | a result built with only `isValid: true` is valid with no issues and no actions |
| StorageErrors.Join | Sources/DogTagStorage/Utilities/StorageError.swift:29 | joining one part yields that part; joining none yields the empty text |
| StorageErrors.DescriptionIsPrefixThenPayload | Sources/DogTagStorage/Utilities/StorageError.swift:18-41 | every error description is its case's fixed lead-in followed by the case's payload |
| StorageErrors.DescriptionSignature | Sources/DogTagStorage/Utilities/StorageError.swift:18-41 | every description is longer than 11 characters, and characters 0, 1 and 11 identify the case |
| StorageErrors.DescriptionDeterminesCase | Sources/DogTagStorage/Utilities/StorageError.swift:18-41 | two errors with the same description are of the same case |
| StorageErrors.FailureReason | Sources/DogTagStorage/Utilities/StorageError.swift:43-45 | the failure reason is the error description, and starts with the case's lead-in |
| StorageErrors.RecoverySuggestion | Sources/DogTagStorage/Utilities/StorageError.swift:47-70 | every case has a recovery suggestion |
| StorageErrors.DefaultConfiguration | Sources/DogTagStorage/Utilities/StorageError.swift:84-92 | the default preset: name WebManStorage, no logging, no sync, no custom path, schema 1.0, 3 retries, 30 s timeout |
| StorageErrors.TestConfiguration | Sources/DogTagStorage/Utilities/StorageError.swift:95-103 | the test preset: name WebManStorageTest, logging on, no sync, no custom path, schema 1.0, 1 retry, 5 s timeout |
| StorageErrors.NamedConfiguration | Sources/DogTagStorage/Utilities/StorageError.swift:105-121 | a configuration given only a name equals the default preset with that name |
| CredentialModel.NewCredential | Sources/DogTagStorage/Models/CredentialData.swift:21-45 | the initializer's defaults: no key reference, never used, sign count 0, not resident, no display name, type public-key, created now |
| CredentialModel.WithUpdatedSignCount | Sources/DogTagStorage/Models/CredentialData.swift:52-66 | the copy differs from the original only in the new sign count and a last-used time of now |
| CredentialModel.WithUpdatedLastUsed | Sources/DogTagStorage/Models/CredentialData.swift:69-83 | the copy differs from the original only in its last-used time |
| CredentialModel.SignCountUpdateIsLastUsedUpdatePlusCount | Sources/DogTagStorage/Models/CredentialData.swift:52-83 | updating the sign count is updating the last-used time and then setting the count; identity and creation time are kept |
| ServerCredentialModel.NewServerCredential | Sources/DogTagStorage/Models/ServerCredentialData.swift:32-74 | the initializer's defaults: sign count 0, not discoverable, algorithm -7, protocol fido2, enabled, not admin, every optional field absent |
| ServerCredentialModel.WithUpdatedSignCount | Sources/DogTagStorage/Models/ServerCredentialData.swift:81-104 | the copy differs from the original only in the new sign count and a verification time of now |
| ServerCredentialModel.WithUpdatedVerification | Sources/DogTagStorage/Models/ServerCredentialData.swift:107-130 | the copy differs from the original only in its verification time |
| VirtualKeyModel.NewVirtualKey | Sources/DogTagStorage/Models/VirtualKeyData.swift:35-57 | the initializer's defaults: never used, active, no key-derivation information, created now |
| VirtualKeyModel.WithUpdatedLastUsed | Sources/DogTagStorage/Models/VirtualKeyData.swift:64-77 | the copy differs from the original only in its last-used time |
| VirtualKeyModel.WithActiveStatus | Sources/DogTagStorage/Models/VirtualKeyData.swift:80-93 | the copy differs from the original only in its active flag |
| VirtualKeyModel.WithUpdatedEncryptedKey | Sources/DogTagStorage/Models/VirtualKeyData.swift:96-109 | the copy carries the new encrypted key; new key-derivation information replaces the old one, none keeps it, so existing information is never lost; nothing else changes |
| CDWebAuthnCredentialEntity.CDWebAuthnCredential.constructor | Sources/DogTagStorage/CoreData/Models/CDWebAuthnCredential.swift:24-48 | the new row holds every argument; the sign count is stored as a 32-bit integer, which must fit |
| CDWebAuthnCredentialEntity.AllRowsRequest | Sources/DogTagStorage/CoreData/Models/CDWebAuthnCredential.swift:56-58 | a fresh request on the WebAuthnClientCredential entity with no predicate, no ordering and no limit |
| CDWebAuthnCredentialEntity.RequestForRelyingParty | Sources/DogTagStorage/CoreData/Models/CDWebAuthnCredential.swift:61-66 | the request matches `rpId`, ordered by `createdAt` descending, unlimited |
| CDWebAuthnCredentialEntity.RequestById | Sources/DogTagStorage/CoreData/Models/CDWebAuthnCredential.swift:69-74 | the request matches `id` with a fetch limit of one |
| CDWebAuthnCredentialEntity.IdRequestResult | Sources/DogTagStorage/CoreData/Models/CDWebAuthnCredential.swift:69-74 | run over any rows, the id request yields at most one row, a row with that id, and nothing exactly when no row has it |
| CDCredentialMapper.ToCredentialData | Sources/DogTagStorage/CoreData/Mappers/CDCredentialMapper.swift:10-24 | reading a row widens the sign count, so every credential read back can be written again |
| CDCredentialMapper.FromCredentialData | Sources/DogTagStorage/CoreData/Mappers/CDCredentialMapper.swift:27-42 | a storable credential becomes a fresh row that reads back as the same credential |
| CDCredentialMapper.UpdateCDCredential | Sources/DogTagStorage/CoreData/Mappers/CDCredentialMapper.swift:45-57 | after the update the row reads back as exactly the given credential, `id` and `createdAt` included |
| CDCredentialMapper.ToCredentialDataArray | Sources/DogTagStorage/CoreData/Mappers/CDCredentialMapper.swift:60-62 | one value per row, position by position |
| CDServerCredentialEntity.CDServerCredential.constructor | Sources/DogTagStorage/CoreData/Models/CDServerCredential.swift:35-77 | the new row holds every argument; sign count, algorithm and user number are narrowed to 32 bits and must fit; absent backup flags become false and an absent user number 0 |
| CDServerCredentialEntity.AllRowsRequest | Sources/DogTagStorage/CoreData/Models/CDServerCredential.swift:85-87 | a fresh request on the ServerCredential entity with no predicate, no ordering and no limit |
| CDServerCredentialEntity.RequestForRelyingParty | Sources/DogTagStorage/CoreData/Models/CDServerCredential.swift:90-95 | the request matches `rpId`, ordered by `createdAt` descending, unlimited |
| CDServerCredentialEntity.DiscoverableRequest | Sources/DogTagStorage/CoreData/Models/CDServerCredential.swift:98-103 | the request matches discoverable rows, ordered by `lastVerified` descending, unlimited |
| CDServerCredentialEntity.RequestById | Sources/DogTagStorage/CoreData/Models/CDServerCredential.swift:106-111 | the request matches `id` with a fetch limit of one |
| CDServerCredentialEntity.RelyingPartyRequestResult | Sources/DogTagStorage/CoreData/Models/CDServerCredential.swift:90-95 | run over any rows, the relying-party request yields exactly that party's rows, each no more often than stored, newest first |
| CDServerCredentialEntity.DiscoverableRequestResult | Sources/DogTagStorage/CoreData/Models/CDServerCredential.swift:98-103 | run over any rows, the discoverable request yields exactly the discoverable rows, most recently verified first |
| CDServerCredentialEntity.IdRequestResult | Sources/DogTagStorage/CoreData/Models/CDServerCredential.swift:106-111 | run over any rows, the id request yields at most one row, a row with that id, and nothing exactly when no row has it |
| CDServerCredentialMapper.UserNumberFromColumn | Sources/DogTagStorage/CoreData/Mappers/CDServerCredentialMapper.swift:31 | a stored user number of 0 reads as absent, any other as itself |
| CDServerCredentialMapper.UserNumberColumn | Sources/DogTagStorage/CoreData/Mappers/CDServerCredentialMapper.swift:81 | an absent user number is stored as 0, a present one as itself |
| CDServerCredentialMapper.UserNumberRoundTrip | Sources/DogTagStorage/CoreData/Mappers/CDServerCredentialMapper.swift:31-81 | writing then reading a user number gives it back, except that 0 comes back as absent |
| CDServerCredentialMapper.StoredForm | Sources/DogTagStorage/CoreData/Mappers/CDServerCredentialMapper.swift:10-60 | what a row gives back: absent backup flags become false, user number 0 becomes absent, all else is kept; nothing changes exactly when both flags are present and the user number is not 0 |
| CDServerCredentialMapper.StoredFormIdempotent | Sources/DogTagStorage/CoreData/Mappers/CDServerCredentialMapper.swift:10-60 | normalizing twice is normalizing once |
| CDServerCredentialMapper.ToServerCredentialData | Sources/DogTagStorage/CoreData/Mappers/CDServerCredentialMapper.swift:10-33 | what a row reads as can be written again and is already in stored form |
| CDServerCredentialMapper.ReadBackIsStoredForm | Sources/DogTagStorage/CoreData/Mappers/CDServerCredentialMapper.swift:10-82 | a row holding the columns written for a credential reads back as its stored form, with the row's own id and creation time |
| CDServerCredentialMapper.FromServerCredentialData | Sources/DogTagStorage/CoreData/Mappers/CDServerCredentialMapper.swift:36-60 | a storable credential becomes a fresh row that reads back as its stored form |
| CDServerCredentialMapper.UpdateCDServerCredential | Sources/DogTagStorage/CoreData/Mappers/CDServerCredentialMapper.swift:63-82 | every column but `id` and `createdAt` is overwritten, flags coalesced to false and the user number to 0; `id` and `createdAt` keep their old values |
| CDServerCredentialMapper.ToServerCredentialDataArray | Sources/DogTagStorage/CoreData/Mappers/CDServerCredentialMapper.swift:85-87 | one value per row, position by position |
| CDVirtualKeyEntity.CDVirtualKey.constructor | Sources/DogTagStorage/CoreData/Models/CDVirtualKey.swift:26-54 | the new row holds every argument; key size and the two key-derivation integers are narrowed to 32 bits and must fit |
| CDVirtualKeyEntity.AllRowsRequest | Sources/DogTagStorage/CoreData/Models/CDVirtualKey.swift:62-64 | a fresh request on the VirtualKey entity with no predicate, no ordering and no limit |
| CDVirtualKeyEntity.RequestForAlgorithm | Sources/DogTagStorage/CoreData/Models/CDVirtualKey.swift:67-72 | the request matches `algorithm`, ordered by `createdAt` descending, unlimited |
| CDVirtualKeyEntity.ActiveKeysRequest | Sources/DogTagStorage/CoreData/Models/CDVirtualKey.swift:75-80 | the request matches active keys, ordered by `lastUsed` descending, unlimited |
| CDVirtualKeyEntity.RequestById | Sources/DogTagStorage/CoreData/Models/CDVirtualKey.swift:83-88 | the request matches `id` with a fetch limit of one |
| CDVirtualKeyEntity.AlgorithmRequestResult | Sources/DogTagStorage/CoreData/Models/CDVirtualKey.swift:67-72 | run over any rows, the algorithm request yields exactly the keys of that algorithm, newest first |
| CDVirtualKeyEntity.ActiveKeysRequestResult | Sources/DogTagStorage/CoreData/Models/CDVirtualKey.swift:75-80 | run over any rows, the active-keys request yields exactly the active keys, most recently used first |
| CDVirtualKeyEntity.IdRequestResult | Sources/DogTagStorage/CoreData/Models/CDVirtualKey.swift:83-88 | run over any rows, the id request yields at most one row, a row with that id, and nothing exactly when no row has it |
| CDVirtualKeyMapper.KeyDerivationFromColumns | Sources/DogTagStorage/CoreData/Mappers/CDVirtualKeyMapper.swift:11-25 | key-derivation information is rebuilt exactly when algorithm and salt are present and both integers are positive, and then from those columns |
| CDVirtualKeyMapper.StoredKeyDerivation | Sources/DogTagStorage/CoreData/Mappers/CDVirtualKeyMapper.swift:11-57 | what survives the columns: information survives unchanged exactly when it is absent or both its integers are positive, and is dropped otherwise |
| CDVirtualKeyMapper.KeyDerivationColumnsRoundTrip | Sources/DogTagStorage/CoreData/Mappers/CDVirtualKeyMapper.swift:11-57 | writing the four key-derivation columns and reading them back yields the stored form of the information |
| CDVirtualKeyMapper.StoredForm | Sources/DogTagStorage/CoreData/Mappers/CDVirtualKeyMapper.swift:10-59 | what a row gives back for a key: only the key-derivation information can change, and it is unchanged exactly when it survives the columns |
| CDVirtualKeyMapper.ToVirtualKeyData | Sources/DogTagStorage/CoreData/Mappers/CDVirtualKeyMapper.swift:10-39 | reading a row widens the key size, rebuilds the information under the guard, and the result is already in stored form |
| CDVirtualKeyMapper.ReadBackIsStoredForm | Sources/DogTagStorage/CoreData/Mappers/CDVirtualKeyMapper.swift:10-76 | a row holding the columns written for a key reads back as the key's stored form |
| CDVirtualKeyMapper.FromVirtualKeyData | Sources/DogTagStorage/CoreData/Mappers/CDVirtualKeyMapper.swift:42-59 | a storable key becomes a fresh row, with absent information written as no algorithm, no salt and zeros, that holds the key's columns and reads back as the key's stored form |
| CDVirtualKeyMapper.UpdateCDVirtualKey | Sources/DogTagStorage/CoreData/Mappers/CDVirtualKeyMapper.swift:62-76 | every column is overwritten, `id` and `createdAt` included, absent information clears all four derivation columns, and the row holds the key's columns and reads back as the key's stored form |
| CDVirtualKeyMapper.ToVirtualKeyDataArray | Sources/DogTagStorage/CoreData/Mappers/CDVirtualKeyMapper.swift:79-81 | one value per row, position by position |
| SDWebAuthnCredentialEntity.SDWebAuthnCredential.constructor | Sources/DogTagStorage/SwiftData/Models/SDWebAuthnCredential.swift:23-47 | the new model object holds every argument, with the declared defaults for the omitted ones |
| SDServerCredentialEntity.SDServerCredential.constructor | Sources/DogTagStorage/SwiftData/Models/SDServerCredential.swift:34-76 | the new model object holds every argument, the optional flags and user number kept optional |
| SDVirtualKeyEntity.SDVirtualKey.constructor | Sources/DogTagStorage/SwiftData/Models/SDVirtualKey.swift:27-55 | the new model object holds every argument, the four key-derivation fields optional |
| SDCredentialMapper.FromSwiftData | Sources/DogTagStorage/SwiftData/Mappers/CredentialMapper.swift:28-42 | the value carries the model object's identity, dates and counter unchanged |
| SDCredentialMapper.ToSwiftData | Sources/DogTagStorage/SwiftData/Mappers/CredentialMapper.swift:11-25 | a fresh model object that reads back as exactly the credential (lossless round trip) |
| SDCredentialMapper.UpdateSwiftData | Sources/DogTagStorage/SwiftData/Mappers/CredentialMapper.swift:45-56 | `id` is kept and the object then reads back as the credential under that id |
| SDServerCredentialMapper.FromSwiftData | Sources/DogTagStorage/SwiftData/Mappers/ServerCredentialMapper.swift:37-60 | identity, creation date, backup flags and user number pass through, absent ones staying absent |
| SDServerCredentialMapper.ToSwiftData | Sources/DogTagStorage/SwiftData/Mappers/ServerCredentialMapper.swift:11-34 | a fresh model object that reads back as exactly the credential, no defaulting of optional fields |
| SDServerCredentialMapper.ReadBackIsValue | Sources/DogTagStorage/SwiftData/Mappers/ServerCredentialMapper.swift:37-83 | an object whose fields were written from a credential reads back as that credential under the object's id |
| SDServerCredentialMapper.UpdateSwiftData | Sources/DogTagStorage/SwiftData/Mappers/ServerCredentialMapper.swift:63-83 | `id` is kept and every other field takes the credential's value, the optional ones copied as they are |
| SDVirtualKeyMapper.SplitKeyDerivation | Sources/DogTagStorage/SwiftData/Mappers/VirtualKeyMapper.swift:22-25 | absent information gives four absent fields, present information four present ones |
| SDVirtualKeyMapper.KeyDerivationFromFields | Sources/DogTagStorage/SwiftData/Mappers/VirtualKeyMapper.swift:34-46 | the information is rebuilt exactly when all four fields are present, from those four values |
| SDVirtualKeyMapper.KeyDerivationFieldsRoundTrip | Sources/DogTagStorage/SwiftData/Mappers/VirtualKeyMapper.swift:22-46 | splitting then rebuilding gives back any key-derivation information, absent or present |
| SDVirtualKeyMapper.FromSwiftData | Sources/DogTagStorage/SwiftData/Mappers/VirtualKeyMapper.swift:30-60 | the key carries derivation information exactly when all four optional fields are set |
| SDVirtualKeyMapper.ToSwiftData | Sources/DogTagStorage/SwiftData/Mappers/VirtualKeyMapper.swift:11-27 | a fresh model object that reads back as exactly the key; absent information leaves all four fields unset |
| SDVirtualKeyMapper.ReadBackIsValue | Sources/DogTagStorage/SwiftData/Mappers/VirtualKeyMapper.swift:30-76 | an object whose fields were written from a key reads back as that key under the object's id |
| SDVirtualKeyMapper.UpdateSwiftData | Sources/DogTagStorage/SwiftData/Mappers/VirtualKeyMapper.swift:63-76 | `id` is kept, absent information clears all four fields, and the object reads back as the key under its id |
| CoreDataModel.CreateManagedObjectModel | Sources/DogTagStorage/CoreData/CoreDataStorageManager.swift:19-107 | three entities named WebAuthnClientCredential, ServerCredential and VirtualKey, with 11, 20 and 13 attributes, each unique on `id` |
| CoreDataModel.Describe | Sources/DogTagStorage/Migration/SchemaValidator.swift:208 | a default prints as `"\(value)"` does once stored: an integer in decimal, a Bool (held as an NSNumber) as 1 or 0 |
| CoreDataStorage.OpenCoreDataStorage | Sources/DogTagStorage/CoreData/CoreDataStorageManager.swift:122-180 | fails with a configuration error quoting the load failure exactly when the store does not load; otherwise a valid manager with the given configuration and no rows |
| CoreDataStorage.CredentialIdRequest | Sources/DogTagStorage/CoreData/CoreDataStorageManager.swift:267-273 | a request on ServerCredential filtered on equal `credentialId`, unsorted, limited to one row |
| CoreDataStorage.CredentialsOfInsert | Sources/DogTagStorage/CoreData/CoreDataStorageManager.swift:191-194 | storing a row under an id changes only what that id reads back as |
| CoreDataStorage.CredentialsOfRemove | Sources/DogTagStorage/CoreData/CoreDataStorageManager.swift:227-237 | dropping an id drops only its value |
| CoreDataStorage.ServerCredentialsOfInsert | Sources/DogTagStorage/CoreData/CoreDataStorageManager.swift:256-259 | storing a row under an id changes only what that id reads back as |
| CoreDataStorage.ServerCredentialsOfRemove | Sources/DogTagStorage/CoreData/CoreDataStorageManager.swift:294-304 | dropping an id drops only its value |
| CoreDataStorage.ServerCredentialsOfOneChanged | Sources/DogTagStorage/CoreData/CoreDataStorageManager.swift:282-292 | when every other id reads back as before, the stored values are the old ones with that id overwritten |
| CoreDataStorage.WriteServerCredentialRow | Sources/DogTagStorage/CoreData/CoreDataStorageManager.swift:282-292 | rewriting the row under the credential's id changes only that id, which reads back in stored form with its old `createdAt` |
| CoreDataStorage.VirtualKeysOfInsert | Sources/DogTagStorage/CoreData/CoreDataStorageManager.swift:310-313 | storing a row under an id changes only what that id reads back as |
| CoreDataStorage.VirtualKeysOfRemove | Sources/DogTagStorage/CoreData/CoreDataStorageManager.swift:346-356 | dropping an id drops only its value |
| CoreDataStorage.VirtualKeysOfOneChanged | Sources/DogTagStorage/CoreData/CoreDataStorageManager.swift:334-344 | when every other id reads back as before, the stored values are the old ones with that id overwritten |
| CoreDataStorage.WriteVirtualKeyRow | Sources/DogTagStorage/CoreData/CoreDataStorageManager.swift:334-344 | rewriting the row under the key's id changes only that id, which reads back as the key's stored form |
| CoreDataStorage.CoreDataStorageManager.constructor | Sources/DogTagStorage/CoreData/CoreDataStorageManager.swift:122-140 | a manager with the given configuration and no rows of any kind |
| CoreDataStorage.CoreDataStorageManager.CredentialValues | Sources/DogTagStorage/CoreData/CoreDataStorageManager.swift:196-213 | the stored credentials as the engine lists them: each stored value exactly once |
| CoreDataStorage.CoreDataStorageManager.SaveCredential | Sources/DogTagStorage/CoreData/CoreDataStorageManager.swift:191-194 | the credential is stored under its id, all other ids unchanged |
| CoreDataStorage.CoreDataStorageManager.FetchCredential | Sources/DogTagStorage/CoreData/CoreDataStorageManager.swift:196-200 | returns a credential exactly when one is stored under the id, and then that one |
| CoreDataStorage.CoreDataStorageManager.FetchCredentialsFor | Sources/DogTagStorage/CoreData/CoreDataStorageManager.swift:202-206 | exactly the stored credentials of the relying party, each once, newest first |
| CoreDataStorage.CoreDataStorageManager.FetchCredentials | Sources/DogTagStorage/CoreData/CoreDataStorageManager.swift:208-213 | every stored credential once, newest first |
| CoreDataStorage.CoreDataStorageManager.UpdateCredential | Sources/DogTagStorage/CoreData/CoreDataStorageManager.swift:215-225 | a stored id is overwritten with the credential and nothing else changes; an unknown id throws notFound with the source's message and changes nothing, whatever the credential's values (the Int32 range is demanded only of an id that is stored) |
| CoreDataStorage.CoreDataStorageManager.DeleteCredential | Sources/DogTagStorage/CoreData/CoreDataStorageManager.swift:227-237 | a stored id is removed and nothing else; an unknown id throws notFound and changes nothing |
| CoreDataStorage.CoreDataStorageManager.UpdateSignCount | Sources/DogTagStorage/CoreData/CoreDataStorageManager.swift:239-250 | the stored credential becomes `withUpdatedSignCount` of itself at time `now`, others unchanged; an unknown id throws notFound, whatever the count (the Int32 range is demanded only of a stored id) |
| CoreDataStorage.CoreDataStorageManager.DeleteAllCredentials | Sources/DogTagStorage/CoreData/CoreDataStorageManager.swift:362-367 | no credential rows remain |
| CoreDataStorage.CoreDataStorageManager.ServerCredentialValues | Sources/DogTagStorage/CoreData/CoreDataStorageManager.swift:261-280 | the stored server credentials as the engine lists them: each stored value exactly once |
| CoreDataStorage.CoreDataStorageManager.SaveServerCredential | Sources/DogTagStorage/CoreData/CoreDataStorageManager.swift:256-259 | the credential's stored form (absent flags false, absent user number 0) is stored under its id, other ids unchanged |
| CoreDataStorage.CoreDataStorageManager.FetchServerCredential | Sources/DogTagStorage/CoreData/CoreDataStorageManager.swift:261-265 | returns a credential exactly when one is stored under the id, and then that one |
| CoreDataStorage.CoreDataStorageManager.FetchServerCredentialByCredentialId | Sources/DogTagStorage/CoreData/CoreDataStorageManager.swift:267-273 | none exactly when no stored credential has that credential id; otherwise a stored one that has it |
| CoreDataStorage.CoreDataStorageManager.FetchServerCredentials | Sources/DogTagStorage/CoreData/CoreDataStorageManager.swift:275-280 | every stored server credential once, newest first |
| CoreDataStorage.CoreDataStorageManager.UpdateServerCredential | Sources/DogTagStorage/CoreData/CoreDataStorageManager.swift:282-292 | a stored id takes the credential's stored form but keeps its creation date, nothing else changes; an unknown id throws notFound, whatever the credential's values |
| CoreDataStorage.CoreDataStorageManager.DeleteServerCredential | Sources/DogTagStorage/CoreData/CoreDataStorageManager.swift:294-304 | a stored id is removed and nothing else; an unknown id throws notFound and changes nothing |
| CoreDataStorage.CoreDataStorageManager.VirtualKeyValues | Sources/DogTagStorage/CoreData/CoreDataStorageManager.swift:315-326 | the stored keys as the engine lists them: each stored value exactly once |
| CoreDataStorage.CoreDataStorageManager.SaveVirtualKey | Sources/DogTagStorage/CoreData/CoreDataStorageManager.swift:310-313 | the key's stored form is stored under its id, other ids unchanged |
| CoreDataStorage.CoreDataStorageManager.FetchVirtualKey | Sources/DogTagStorage/CoreData/CoreDataStorageManager.swift:315-319 | returns a key exactly when one is stored under the id, and then that one |
| CoreDataStorage.CoreDataStorageManager.FetchVirtualKeys | Sources/DogTagStorage/CoreData/CoreDataStorageManager.swift:321-326 | every stored key once, newest first |
| CoreDataStorage.CoreDataStorageManager.FetchActiveVirtualKeys | Sources/DogTagStorage/CoreData/CoreDataStorageManager.swift:328-332 | exactly the stored active keys, each once, most recently used first |
| CoreDataStorage.CoreDataStorageManager.UpdateVirtualKey | Sources/DogTagStorage/CoreData/CoreDataStorageManager.swift:334-344 | a stored id takes the key's stored form, nothing else changes; an unknown id throws notFound, whatever the key's values |
| CoreDataStorage.CoreDataStorageManager.DeleteVirtualKey | Sources/DogTagStorage/CoreData/CoreDataStorageManager.swift:346-356 | a stored id is removed and nothing else; an unknown id throws notFound and changes nothing |
| CoreDataStorage.CoreDataStorageManager.DeleteAllServerCredentials | Sources/DogTagStorage/CoreData/CoreDataStorageManager.swift:369-374 | no server-credential rows remain |
| CoreDataStorage.CoreDataStorageManager.DeleteAllVirtualKeys | Sources/DogTagStorage/CoreData/CoreDataStorageManager.swift:376-381 | no virtual-key rows remain |
| CoreDataStorage.CoreDataStorageManager.GetStorageInfo | Sources/DogTagStorage/CoreData/CoreDataStorageManager.swift:385-402 | the Core Data backend, the three row counts and schema version "1.0" |
| CoreDataStorage.CoreDataStorageManager.ValidateSchema | Sources/DogTagStorage/CoreData/CoreDataStorageManager.swift:404-419 | valid with no issues exactly when the counts succeed; otherwise one issue quoting the failure and the two fixed actions |
| SwiftDataStorage.OpenSwiftDataStorage | Sources/DogTagStorage/SwiftData/SwiftDataStorageManager.swift:14-56 | fails with a configuration error quoting the container failure exactly when the container cannot be created; otherwise a valid manager with no objects |
| SwiftDataStorage.Wrapped | Sources/DogTagStorage/SwiftData/SwiftDataStorageManager.swift:79-81 | an engine failure in a save, fetch or bulk delete becomes operationFailed naming the operation and quoting the reason |
| SwiftDataStorage.Rethrown | Sources/DogTagStorage/SwiftData/SwiftDataStorageManager.swift:131-136 | in a delete or sign-count update a storage error passes through unchanged and any other error becomes operationFailed |
| SwiftDataStorage.CredentialsOfInsert | Sources/DogTagStorage/SwiftData/SwiftDataStorageManager.swift:60-82 | inserting an object under an id changes only what that id reads back as |
| SwiftDataStorage.CredentialsOfRemove | Sources/DogTagStorage/SwiftData/SwiftDataStorageManager.swift:119-137 | dropping an id drops only its value |
| SwiftDataStorage.CredentialsOfOneChanged | Sources/DogTagStorage/SwiftData/SwiftDataStorageManager.swift:60-82 | when every other id reads back as before, the stored values are the old ones with that id overwritten |
| SwiftDataStorage.WriteCredentialRow | Sources/DogTagStorage/SwiftData/SwiftDataStorageManager.swift:60-82 | rewriting the object under the credential's id changes only that id, which reads back as the credential |
| SwiftDataStorage.WriteSignCount | Sources/DogTagStorage/SwiftData/SwiftDataStorageManager.swift:143-162 | the object under the id becomes `withUpdatedSignCount` of its old value, and no other id changes |
| SwiftDataStorage.ServerCredentialsOfInsert | Sources/DogTagStorage/SwiftData/SwiftDataStorageManager.swift:166-185 | inserting an object under an id changes only what that id reads back as |
| SwiftDataStorage.ServerCredentialsOfRemove | Sources/DogTagStorage/SwiftData/SwiftDataStorageManager.swift:219-237 | dropping an id drops only its value |
| SwiftDataStorage.ServerCredentialsOfOneChanged | Sources/DogTagStorage/SwiftData/SwiftDataStorageManager.swift:166-185 | when every other id reads back as before, the stored values are the old ones with that id overwritten |
| SwiftDataStorage.WriteServerCredentialRow | Sources/DogTagStorage/SwiftData/SwiftDataStorageManager.swift:166-185 | rewriting the object under the credential's id changes only that id, which reads back as the credential |
| SwiftDataStorage.VirtualKeysOfInsert | Sources/DogTagStorage/SwiftData/SwiftDataStorageManager.swift:245-264 | inserting an object under an id changes only what that id reads back as |
| SwiftDataStorage.VirtualKeysOfRemove | Sources/DogTagStorage/SwiftData/SwiftDataStorageManager.swift:301-319 | dropping an id drops only its value |
| SwiftDataStorage.VirtualKeysOfOneChanged | Sources/DogTagStorage/SwiftData/SwiftDataStorageManager.swift:245-264 | when every other id reads back as before, the stored values are the old ones with that id overwritten |
| SwiftDataStorage.WriteVirtualKeyRow | Sources/DogTagStorage/SwiftData/SwiftDataStorageManager.swift:245-264 | rewriting the object under the key's id changes only that id, which reads back as the key |
| SwiftDataStorage.SwiftDataStorageManager.constructor | Sources/DogTagStorage/SwiftData/SwiftDataStorageManager.swift:14-56 | a manager with the given configuration and no objects of any kind |
| SwiftDataStorage.SwiftDataStorageManager.CredentialValues | Sources/DogTagStorage/SwiftData/SwiftDataStorageManager.swift:84-94 | the stored credentials as the engine lists them: each stored value exactly once |
| SwiftDataStorage.SwiftDataStorageManager.FetchSwiftDataCredential | Sources/DogTagStorage/SwiftData/SwiftDataStorageManager.swift:437-442 | the object stored under the id exactly when there is one |
| SwiftDataStorage.SwiftDataStorageManager.SaveCredential | Sources/DogTagStorage/SwiftData/SwiftDataStorageManager.swift:60-82 | without a fault the id reads back as exactly the credential, whether it was stored or not, and no other id changes; a fault gives operationFailed("saveCredential") and no change |
| SwiftDataStorage.SwiftDataStorageManager.FetchCredentials | Sources/DogTagStorage/SwiftData/SwiftDataStorageManager.swift:84-94 | every stored credential once, newest first, or operationFailed("fetchCredentials") on a fault |
| SwiftDataStorage.SwiftDataStorageManager.FetchCredential | Sources/DogTagStorage/SwiftData/SwiftDataStorageManager.swift:96-103 | the credential stored under the id exactly when there is one, or operationFailed on a fault |
| SwiftDataStorage.SwiftDataStorageManager.FetchCredentialsFor | Sources/DogTagStorage/SwiftData/SwiftDataStorageManager.swift:105-117 | exactly the relying party's stored credentials, each once, newest first, or operationFailed on a fault |
| SwiftDataStorage.SwiftDataStorageManager.DeleteCredential | Sources/DogTagStorage/SwiftData/SwiftDataStorageManager.swift:119-137 | a stored id is removed and nothing else; an unknown id gives notFound("Credential with id: …") unwrapped; a fault gives operationFailed |
| SwiftDataStorage.SwiftDataStorageManager.UpdateCredential | Sources/DogTagStorage/SwiftData/SwiftDataStorageManager.swift:139-141 | behaves as a save, so an unknown id is stored rather than reported, and a fault is reported under the name "saveCredential" |
| SwiftDataStorage.SwiftDataStorageManager.UpdateSignCount | Sources/DogTagStorage/SwiftData/SwiftDataStorageManager.swift:143-162 | the stored credential becomes `withUpdatedSignCount` of itself at `now`; an unknown id gives notFound unwrapped; a fault gives operationFailed("updateSignCount") |
| SwiftDataStorage.SwiftDataStorageManager.DeleteAllCredentials | Sources/DogTagStorage/SwiftData/SwiftDataStorageManager.swift:327-344 | deleting the fetched objects one by one leaves none, or a fault gives operationFailed and no change |
| SwiftDataStorage.SwiftDataStorageManager.ServerCredentialValues | Sources/DogTagStorage/SwiftData/SwiftDataStorageManager.swift:187-197 | the stored server credentials as the engine lists them: each stored value exactly once |
| SwiftDataStorage.SwiftDataStorageManager.FetchSwiftDataServerCredential | Sources/DogTagStorage/SwiftData/SwiftDataStorageManager.swift:444-449 | the object stored under the id exactly when there is one |
| SwiftDataStorage.SwiftDataStorageManager.SaveServerCredential | Sources/DogTagStorage/SwiftData/SwiftDataStorageManager.swift:166-185 | without a fault the id reads back as exactly the credential and no other id changes; a fault gives operationFailed and no change |
| SwiftDataStorage.SwiftDataStorageManager.FetchServerCredentials | Sources/DogTagStorage/SwiftData/SwiftDataStorageManager.swift:187-197 | every stored server credential once, newest first, or operationFailed on a fault |
| SwiftDataStorage.SwiftDataStorageManager.FetchServerCredential | Sources/DogTagStorage/SwiftData/SwiftDataStorageManager.swift:199-206 | the server credential stored under the id exactly when there is one, or operationFailed on a fault |
| SwiftDataStorage.SwiftDataStorageManager.FetchServerCredentialByCredentialId | Sources/DogTagStorage/SwiftData/SwiftDataStorageManager.swift:208-217 | none exactly when no stored credential has that credential id, otherwise a stored one that has it, or operationFailed on a fault |
| SwiftDataStorage.SwiftDataStorageManager.DeleteServerCredential | Sources/DogTagStorage/SwiftData/SwiftDataStorageManager.swift:219-237 | a stored id is removed and nothing else; an unknown id gives notFound unwrapped; a fault gives operationFailed |
| SwiftDataStorage.SwiftDataStorageManager.UpdateServerCredential | Sources/DogTagStorage/SwiftData/SwiftDataStorageManager.swift:239-241 | behaves as a save: an unknown id is stored rather than reported |
| SwiftDataStorage.SwiftDataStorageManager.DeleteAllServerCredentials | Sources/DogTagStorage/SwiftData/SwiftDataStorageManager.swift:346-363 | deleting the fetched objects one by one leaves none, or a fault gives operationFailed and no change |
| SwiftDataStorage.SwiftDataStorageManager.VirtualKeyValues | Sources/DogTagStorage/SwiftData/SwiftDataStorageManager.swift:266-276 | the stored keys as the engine lists them: each stored value exactly once |
| SwiftDataStorage.SwiftDataStorageManager.FetchSwiftDataVirtualKey | Sources/DogTagStorage/SwiftData/SwiftDataStorageManager.swift:451-456 | the object stored under the id exactly when there is one |
| SwiftDataStorage.SwiftDataStorageManager.SaveVirtualKey | Sources/DogTagStorage/SwiftData/SwiftDataStorageManager.swift:245-264 | without a fault the id reads back as exactly the key and no other id changes; a fault gives operationFailed and no change |
| SwiftDataStorage.SwiftDataStorageManager.FetchVirtualKeys | Sources/DogTagStorage/SwiftData/SwiftDataStorageManager.swift:266-276 | every stored key once, newest first, or operationFailed on a fault |
| SwiftDataStorage.SwiftDataStorageManager.FetchVirtualKey | Sources/DogTagStorage/SwiftData/SwiftDataStorageManager.swift:278-285 | the key stored under the id exactly when there is one, or operationFailed on a fault |
| SwiftDataStorage.SwiftDataStorageManager.FetchActiveVirtualKeys | Sources/DogTagStorage/SwiftData/SwiftDataStorageManager.swift:287-299 | exactly the stored active keys, each once, newest first by creation date, or operationFailed on a fault |
| SwiftDataStorage.SwiftDataStorageManager.DeleteVirtualKey | Sources/DogTagStorage/SwiftData/SwiftDataStorageManager.swift:301-319 | a stored id is removed and nothing else; an unknown id gives notFound unwrapped; a fault gives operationFailed |
| SwiftDataStorage.SwiftDataStorageManager.UpdateVirtualKey | Sources/DogTagStorage/SwiftData/SwiftDataStorageManager.swift:321-323 | behaves as a save: an unknown id is stored rather than reported |
| SwiftDataStorage.SwiftDataStorageManager.DeleteAllVirtualKeys | Sources/DogTagStorage/SwiftData/SwiftDataStorageManager.swift:365-382 | deleting the fetched objects one by one leaves none, or a fault gives operationFailed and no change |
| SwiftDataStorage.SwiftDataStorageManager.GetStorageInfo | Sources/DogTagStorage/SwiftData/SwiftDataStorageManager.swift:386-411 | the SwiftData backend, the three object counts and the configuration's schema version, or operationFailed("getStorageInfo") on a fault |
| SwiftDataStorage.SwiftDataStorageManager.ValidateSchema | Sources/DogTagStorage/SwiftData/SwiftDataStorageManager.swift:413-434 | valid with no issues exactly when the counts succeed; otherwise one issue quoting the failure and the two SwiftData actions |
| StorageErrors.RethrowStorageErrors | Sources/DogTagStorage/SwiftData/SwiftDataStorageManager.swift:131-136 | the result is always a storage error: a storage error passes through unchanged, an engine error becomes operationFailed with its reason |
| StorageErrors.WrapAsOperationFailed | Sources/DogTagStorage/SwiftData/SwiftDataStorageManager.swift:91-93 | any error becomes operationFailed naming the operation, with the error's localized description as reason |
| MockStorage.MockStorageManager.constructor | Sources/DogTagStorage/Factory/StorageFactory.swift:120-123 | all three dictionaries empty |
| MockStorage.MockStorageManager.SaveCredential | Sources/DogTagStorage/Factory/StorageFactory.swift:125-127 | an upsert: the id maps to the credential, nothing else changes |
| MockStorage.MockStorageManager.FetchCredentials | Sources/DogTagStorage/Factory/StorageFactory.swift:129-131 | every stored credential exactly once, in no promised order |
| MockStorage.MockStorageManager.FetchCredential | Sources/DogTagStorage/Factory/StorageFactory.swift:133-135 | a credential exactly when the id is stored, and then the one under that id |
| MockStorage.MockStorageManager.FetchCredentialsFor | Sources/DogTagStorage/Factory/StorageFactory.swift:137-139 | exactly the stored credentials of the relying party, each once |
| MockStorage.MockStorageManager.DeleteCredential | Sources/DogTagStorage/Factory/StorageFactory.swift:141-143 | the id is removed; an unknown id is no error |
| MockStorage.MockStorageManager.UpdateCredential | Sources/DogTagStorage/Factory/StorageFactory.swift:145-147 | the same upsert as save |
| MockStorage.MockStorageManager.UpdateSignCount | Sources/DogTagStorage/Factory/StorageFactory.swift:149-153 | a stored credential becomes `withUpdatedSignCount` of itself; an unknown id changes nothing and is no error |
| MockStorage.MockStorageManager.SaveServerCredential | Sources/DogTagStorage/Factory/StorageFactory.swift:155-157 | an upsert keyed by id |
| MockStorage.MockStorageManager.FetchServerCredentials | Sources/DogTagStorage/Factory/StorageFactory.swift:159-161 | every stored server credential exactly once |
| MockStorage.MockStorageManager.FetchServerCredential | Sources/DogTagStorage/Factory/StorageFactory.swift:163-165 | a server credential exactly when the id is stored, and then that one |
| MockStorage.MockStorageManager.FetchServerCredentialByCredentialId | Sources/DogTagStorage/Factory/StorageFactory.swift:167-169 | none exactly when no stored credential has the credential id, otherwise a stored one that has it |
| MockStorage.MockStorageManager.DeleteServerCredential | Sources/DogTagStorage/Factory/StorageFactory.swift:171-173 | the id is removed; an unknown id is no error |
| MockStorage.MockStorageManager.UpdateServerCredential | Sources/DogTagStorage/Factory/StorageFactory.swift:175-177 | the same upsert as save |
| MockStorage.MockStorageManager.SaveVirtualKey | Sources/DogTagStorage/Factory/StorageFactory.swift:179-181 | an upsert keyed by id |
| MockStorage.MockStorageManager.FetchVirtualKeys | Sources/DogTagStorage/Factory/StorageFactory.swift:183-185 | every stored key exactly once |
| MockStorage.MockStorageManager.FetchVirtualKey | Sources/DogTagStorage/Factory/StorageFactory.swift:187-189 | a key exactly when the id is stored, and then that one |
| MockStorage.MockStorageManager.FetchActiveVirtualKeys | Sources/DogTagStorage/Factory/StorageFactory.swift:191-193 | exactly the stored active keys, each once |
| MockStorage.MockStorageManager.DeleteVirtualKey | Sources/DogTagStorage/Factory/StorageFactory.swift:195-197 | the id is removed; an unknown id is no error |
| MockStorage.MockStorageManager.UpdateVirtualKey | Sources/DogTagStorage/Factory/StorageFactory.swift:199-201 | the same upsert as save |
| MockStorage.MockStorageManager.DeleteAllCredentials | Sources/DogTagStorage/Factory/StorageFactory.swift:203-205 | no credentials remain |
| MockStorage.MockStorageManager.DeleteAllServerCredentials | Sources/DogTagStorage/Factory/StorageFactory.swift:207-209 | no server credentials remain |
| MockStorage.MockStorageManager.DeleteAllVirtualKeys | Sources/DogTagStorage/Factory/StorageFactory.swift:211-213 | no keys remain |
| MockStorage.MockStorageManager.GetStorageInfo | Sources/DogTagStorage/Factory/StorageFactory.swift:215-225 | the mock backend, path "in-memory", size 0, the three dictionary sizes and version "1.0" |
| MockStorage.MockStorageManager.ValidateSchema | Sources/DogTagStorage/Factory/StorageFactory.swift:227-229 | always valid with no issues and no actions |
| StorageFactory.ConfigurationsEqual | Sources/DogTagStorage/Factory/StorageFactory.swift:106-115 | the field-by-field comparison holds exactly when the two configurations are equal |
| StorageFactory.SwiftDataCreationError | Sources/DogTagStorage/Factory/StorageFactory.swift:29-33 | a configuration error whose message nests the SwiftData container failure's full description |
| StorageFactory.CoreDataCreationError | Sources/DogTagStorage/Factory/StorageFactory.swift:36-40 | a configuration error whose message nests the Core Data store-loading failure's full description |
| StorageFactory.CreateMockStorageManager | Sources/DogTagStorage/Factory/StorageFactory.swift:51-53 | a fresh mock with nothing stored |
| StorageFactory.StorageFactory.constructor | Sources/DogTagStorage/Factory/StorageFactory.swift:10-11 | both cache slots empty |
| StorageFactory.StorageFactory.GetAvailableBackendType | Sources/DogTagStorage/Factory/StorageFactory.swift:86-92 | SwiftData exactly when the OS offers it, otherwise Core Data, never the mock |
| StorageFactory.StorageFactory.IsSwiftDataAvailable | Sources/DogTagStorage/Factory/StorageFactory.swift:96-102 | true exactly when automatic selection picks SwiftData |
| StorageFactory.StorageFactory.CreateStorageManager | Sources/DogTagStorage/Factory/StorageFactory.swift:16-46 | a cache hit returns the cached manager unchanged; otherwise the available backend is opened, cached with the configuration on success, and a failure is a configuration error naming the backend that leaves the cache alone |
| StorageFactory.StorageFactory.CreateStorageManagerOfType | Sources/DogTagStorage/Factory/StorageFactory.swift:60-76 | exactly the backend asked for, never cached; SwiftData on an OS without it is a configuration error; a backend's own opening error is passed on unwrapped |
| StorageFactory.StorageFactory.ResetCachedManager | Sources/DogTagStorage/Factory/StorageFactory.swift:79-82 | both slots cleared, so no configuration hits the cache afterwards |
| FetchRequests.SortBy | Sources/DogTagStorage/CoreData/CoreDataStorageManager.swift:210 | the engine's ordering: a permutation of the rows, sorted by the key in the requested direction |
| FetchRequests.SortByAll | Sources/DogTagStorage/CoreData/CoreDataStorageManager.swift:208-213 | a permutation of the rows, ordered by the first sort descriptor |
| FetchRequests.Filter | Sources/DogTagStorage/CoreData/CoreDataStorageManager.swift:269 | the rows the predicate accepts, each as often as it is held, and no others |
| FetchRequests.Limit | Sources/DogTagStorage/CoreData/CoreDataStorageManager.swift:270 | at most `fetchLimit` rows, a prefix of the input, and all of them when the limit is 0 |
| FetchRequests.Run | Sources/DogTagStorage/CoreData/CoreDataStorageManager.swift:267-273 | a fetch returns only accepted rows, as the accepted rows ordered and then cut to the limit |
| FetchRequests.FetchRequest.constructor | Sources/DogTagStorage/CoreData/Models/CDWebAuthnCredential.swift:56-58 | a new request on the entity has no predicate, no ordering and no limit |
| FetchRequests.RunSelects | Sources/DogTagStorage/CoreData/CoreDataStorageManager.swift:202-206 | without a limit a fetch returns exactly the rows its predicate accepts |
| FetchRequests.RunAll | Sources/DogTagStorage/CoreData/CoreDataStorageManager.swift:208-213 | with no predicate and no limit a fetch returns every row as often as it is held |
| FetchRequests.RunWithinRows | Sources/DogTagStorage/CoreData/CoreDataStorageManager.swift:196-200 | a fetch never returns a row more often than the engine holds it |
| FetchRequests.RunFirst | Sources/DogTagStorage/CoreData/CoreDataStorageManager.swift:267-273 | with a limit, a fetch returns at most that many rows and is empty exactly when no row is accepted |
| FetchRequests.DistinctSubMultiset | Sources/DogTagStorage/CoreData/CoreDataStorageManager.swift:196-213 | a fetch over rows without repetitions returns no row twice |
| StoreQueries.AllCredentialsResult | Sources/DogTagStorage/CoreData/CoreDataStorageManager.swift:208-213 | fetch-all ordered by `createdAt` descending returns every credential row, newest first |
| StoreQueries.CredentialsForRelyingPartyResult | Sources/DogTagStorage/CoreData/Models/CDWebAuthnCredential.swift:61-66 | the relying-party request returns exactly the rows with that `rpId`, newest first |
| StoreQueries.AllServerCredentialsResult | Sources/DogTagStorage/CoreData/CoreDataStorageManager.swift:275-280 | fetch-all returns every server-credential row, newest first |
| StoreQueries.CredentialIdFirstResult | Sources/DogTagStorage/CoreData/CoreDataStorageManager.swift:267-273 | the credential-id lookup limited to one row is empty exactly when no row carries the id, and otherwise returns one that does |
| StoreQueries.CredentialIdAllResult | Sources/DogTagStorage/SwiftData/SwiftDataStorageManager.swift:208-217 | the unlimited credential-id lookup returns exactly the rows carrying the id |
| StoreQueries.AllVirtualKeysResult | Sources/DogTagStorage/CoreData/CoreDataStorageManager.swift:321-326 | fetch-all returns every key row, newest first |
| StoreQueries.ActiveKeysNewestFirstResult | Sources/DogTagStorage/SwiftData/SwiftDataStorageManager.swift:287-299 | the active-key descriptor returns exactly the active rows, newest first by creation |
| SchemaValidator.AttributeTypeToSQLiteType | Sources/DogTagStorage/Migration/SchemaValidator.swift:447-464 | integers and booleans map to INTEGER, floating types and dates to REAL, binary data to BLOB, everything else to TEXT, and nothing outside these four |
| SchemaValidator.ValidateCoreDataSchema | Sources/DogTagStorage/Migration/SchemaValidator.swift:192-233 | one table per entity in order, one column per attribute with its SQLite type and optionality, `id` exactly the primary key, and one numbered UNIQUE constraint per uniqueness constraint |
| SchemaValidator.EmitEach | Sources/DogTagStorage/Migration/SchemaValidator.swift:338-344 | iterating a set emits each element's entry exactly once, in an order left open |
| SchemaValidator.FirstTable | Sources/DogTagStorage/Migration/SchemaValidator.swift:348 | `first(where:)` on tables: the earliest table with the name, none when no table has it |
| SchemaValidator.FirstColumn | Sources/DogTagStorage/Migration/SchemaValidator.swift:363 | `first(where:)` on columns: the earliest column with the name, none when no column has it |
| SchemaValidator.MissingTableIssueInjective | Sources/DogTagStorage/Migration/SchemaValidator.swift:338-340 | distinct missing tables give distinct issue messages, so a set of names yields as many issues |
| SchemaValidator.ExtraTableIssueInjective | Sources/DogTagStorage/Migration/SchemaValidator.swift:342-344 | distinct extra tables give distinct issue messages |
| SchemaValidator.MissingColumnIssueInjective | Sources/DogTagStorage/Migration/SchemaValidator.swift:353-355 | distinct missing columns of a table give distinct issue messages |
| SchemaValidator.ExtraColumnIssueInjective | Sources/DogTagStorage/Migration/SchemaValidator.swift:357-359 | distinct extra columns of a table give distinct issue messages |
| SchemaValidator.CompareColumnWithExpected | Sources/DogTagStorage/Migration/SchemaValidator.swift:363-373 | the type and the optionality issues for one expected column, none when the schema lacks that column: one issue per check that fails, the type issue first and the optionality issue last |
| SchemaValidator.CompareColumnsWithExpected | Sources/DogTagStorage/Migration/SchemaValidator.swift:363-373 | the type and optionality issues of a table, column by column in the expected order |
| SchemaValidator.CompareTableWithExpected | Sources/DogTagStorage/Migration/SchemaValidator.swift:347-374 | for one expected table the schema also has: its missing and extra columns by name and its per-column mismatches |
| SchemaValidator.CompareTableNamesWithExpected | Sources/DogTagStorage/Migration/SchemaValidator.swift:333-344 | one issue per expected table the schema lacks and one per table only the schema has |
| SchemaValidator.CompareWithExpected | Sources/DogTagStorage/Migration/SchemaValidator.swift:331-376 | the issues are, with multiplicity, the table-level ones and the column-level ones of every expected table |
| SchemaValidator.CompareColumnPair | Sources/DogTagStorage/Migration/SchemaValidator.swift:429-439 | exactly one columnTypeMismatch record naming the column when the other table's column differs in type, in optionality or in both, none when it agrees or is absent |
| SchemaValidator.CompareColumnSchemas | Sources/DogTagStorage/Migration/SchemaValidator.swift:429-439 | the mismatch records of a table, column by column in the first schema's order |
| SchemaValidator.CompareTableSchemas | Sources/DogTagStorage/Migration/SchemaValidator.swift:403-441 | for one table of the first schema the second also has: columns only one has and the per-column mismatches |
| SchemaValidator.CompareTableNames | Sources/DogTagStorage/Migration/SchemaValidator.swift:385-399 | one record per table only the first schema has and one per table only the second has |
| SchemaValidator.CompareSchemas | Sources/DogTagStorage/Migration/SchemaValidator.swift:379-444 | the records are, with multiplicity, the table-level ones and the column-level ones of every table of the first schema |
| SchemaValidator.CompareBackends | Sources/DogTagStorage/Migration/SchemaValidator.swift:143-162 | the Core Data schema is the introspected model, its issues are those against the expected schema, and the SwiftData issues and backend differences are computed only where SwiftData is available |
| SchemaValidator.Summarize | Sources/DogTagStorage/Migration/SchemaValidator.swift:164-188 | valid, with nothing else, exactly when no issue and no difference was found; otherwise every issue, one more when the backends differ, its action or the three default actions, and the comparison |
| SchemaValidator.ValidateCrossBackendCompatibility | Sources/DogTagStorage/Migration/SchemaValidator.swift:138-189 | valid exactly when Core Data and, where available, SwiftData raise no issue against the expected schema and do not differ from each other |
| SchemaProperties.SameShapeWellFormed | Sources/DogTagStorage/Migration/SchemaValidator.swift:351-364 | unique table and column names carry over to a schema of the same shape |
| SchemaProperties.FirstTableOfUnique | Sources/DogTagStorage/Migration/SchemaValidator.swift:348 | with unique table names, looking a table up by its own name finds that table |
| SchemaProperties.FirstColumnOfUnique | Sources/DogTagStorage/Migration/SchemaValidator.swift:363 | with unique column names, looking a column up by its own name finds that column |
| SchemaProperties.SameShapeTableNames | Sources/DogTagStorage/Migration/SchemaValidator.swift:335-336 | schemas of the same shape have the same set of table names |
| SchemaProperties.SameColumnsColumnNames | Sources/DogTagStorage/Migration/SchemaValidator.swift:353-354 | tables with the same columns have the same set of column names |
| SchemaProperties.TableColumnIssuesIncluded | Sources/DogTagStorage/Migration/SchemaValidator.swift:347-374 | every expected table contributes its column-level issues to the comparison |
| SchemaProperties.ExtraColumnReported | Sources/DogTagStorage/Migration/SchemaValidator.swift:357-359 | a column only the schema's table has is reported as an extra column of that table |
| SchemaProperties.NoColumnMismatchIssues | Sources/DogTagStorage/Migration/SchemaValidator.swift:363-373 | columns that agree in name, type and optionality raise no mismatch issue |
| SchemaProperties.NoTableColumnIssues | Sources/DogTagStorage/Migration/SchemaValidator.swift:347-374 | a table of the same shape as the expected one raises no column-level issue |
| SchemaProperties.NoColumnIssues | Sources/DogTagStorage/Migration/SchemaValidator.swift:347-374 | a schema of the expected shape raises no column-level issue for any table |
| SchemaProperties.SameShapeNoIssues | Sources/DogTagStorage/Migration/SchemaValidator.swift:331-376 | a well-formed schema compared with one of the same shape yields no issue at all |
| SchemaProperties.NoColumnMismatchDifferences | Sources/DogTagStorage/Migration/SchemaValidator.swift:429-439 | columns that agree in name, type and optionality give no mismatch record |
| SchemaProperties.NoTableDifferences | Sources/DogTagStorage/Migration/SchemaValidator.swift:403-441 | a table of the same shape in both schemas gives no record |
| SchemaProperties.NoColumnDifferences | Sources/DogTagStorage/Migration/SchemaValidator.swift:403-441 | schemas of the same shape give no column-level record for any table |
| SchemaProperties.SameShapeNoDifferences | Sources/DogTagStorage/Migration/SchemaValidator.swift:379-444 | `compareSchemas` of two well-formed schemas of the same shape returns no record |
| SchemaFindings.IntrospectedModelShaped | Sources/DogTagStorage/CoreData/CoreDataStorageManager.swift:19-107 | the introspected Core Data model has the three tables, in order, with the columns, SQLite types and optionality the model declares |
| SchemaFindings.IntrospectedModelMatchesTables | Sources/DogTagStorage/Migration/SchemaValidator.swift:192-233 | the Core Data schema has the same shape as the corrected expected tables |
| SchemaFindings.ModelTablesWellFormed | Sources/DogTagStorage/Migration/SchemaValidator.swift:262-328 | the corrected expected tables have unique table names and unique column names per table |
| SchemaFindings.ModelTablesCompatible | Sources/DogTagStorage/Migration/SchemaValidator.swift:138-189 | with the corrected ServerCredential table the validation is valid, whatever the emoji default and whether SwiftData is available |
| SchemaFindings.AsWrittenExtraColumn | Sources/DogTagStorage/Migration/SchemaValidator.swift:285-303 | against the ServerCredential table as written, each of the eleven columns past the ninth is reported as an extra Core Data column |
| SchemaFindings.AsWrittenIncompatible | Sources/DogTagStorage/Migration/SchemaValidator.swift:285-303 | with the ServerCredential table as written the validation is never valid |
| SchemaFindings.CredentialDefaultsAsExpected | Sources/DogTagStorage/Migration/SchemaValidator.swift:262-283 | every attribute of the credential entity introspects to the default the expected table writes for that column, `isResident` as "0" |
| SchemaFindings.VirtualKeyDefaultsAsExpected | Sources/DogTagStorage/Migration/SchemaValidator.swift:306-328 | every attribute of the virtual-key entity introspects to the default the expected table writes, `isActive` as "1" |
| SchemaFindings.ServerCredentialDefaultsAsExpected | Sources/DogTagStorage/Migration/SchemaValidator.swift:285-303 | every server-credential attribute except `emoji` introspects to the default the corrected table writes, each flag as "0" or "1" and `algorithm` as "-7" |
| SchemaFindings.UniquenessDeclared | Sources/DogTagStorage/SwiftData/Models/SDServerCredential.swift:11-12 | both backends make `id` unique for every entity; only the SwiftData server credential also makes `credentialId` unique, which neither the Core Data entity (CoreDataStorageManager.swift:76) nor the schema's table constrains |
| SchemaReports.MismatchDifferencesNameColumns | Sources/DogTagStorage/Migration/SchemaValidator.swift:429-439 | every mismatch record of a table's columns is a columnTypeMismatch that names its column |
| SchemaReports.TableDifferencesNameColumns | Sources/DogTagStorage/Migration/SchemaValidator.swift:403-441 | every record raised for the columns of one table names a column |
| SchemaReports.ColumnDifferencesNameColumns | Sources/DogTagStorage/Migration/SchemaValidator.swift:403-441 | every column-level record of the comparison names a column, so none is a table-level record |
| SchemaReports.MissingTableRecorded | Sources/DogTagStorage/Migration/SchemaValidator.swift:382-392 | compareSchemas records a missingTable for a table exactly when the first schema has it and the second does not |
| SchemaReports.ExtraTableRecorded | Sources/DogTagStorage/Migration/SchemaValidator.swift:382-399 | compareSchemas records an extraTable for a table exactly when the second schema has it and the first does not |
| SchemaReports.SwappedTableDifferences | Sources/DogTagStorage/Migration/SchemaValidator.swift:382-399 | swapping the two schemas turns each missing table into an extra table and back, with the same description |
| SchemaReports.MismatchIssuesLevel | Sources/DogTagStorage/Migration/SchemaValidator.swift:363-373 | every type or optionality issue is a column issue ("Column '...'"), never a table issue |
| SchemaReports.TableColumnIssuesLevel | Sources/DogTagStorage/Migration/SchemaValidator.swift:347-374 | every issue raised for the columns of one expected table is a column-level issue |
| SchemaReports.ColumnIssuesLevel | Sources/DogTagStorage/Migration/SchemaValidator.swift:347-374 | every issue raised for the columns of the expected tables is a column-level issue |
| SchemaReports.MissingTableReported | Sources/DogTagStorage/Migration/SchemaValidator.swift:335-340 | compareWithExpected reports "Missing table" for a name exactly when the expected schema has that table and the introspected one does not |
| SchemaReports.ExtraTableReported | Sources/DogTagStorage/Migration/SchemaValidator.swift:335-344 | compareWithExpected reports "Extra table" for a name exactly when the introspected schema has that table and the expected one does not |

## Left out

- File-system work is not modelled: store URLs, database paths, directory creation and database sizes. `GetStorageInfo` takes the path and the size as parameters.
- The persistence engines are not modelled: `NSPersistentContainer`, `ModelContainer`/`ModelContext`, batch deletes and predicate execution. A manager's context is one id→row map per kind.
  - A newly opened manager starts with empty maps. The contents of an existing store on disk are not modelled.
  - A failure to load the Core Data store is a `loadFailure` parameter.
  - An engine failure during a SwiftData fetch is a `fault` parameter.
  - Failures at commit time (`context.save`) are not modelled, because the engine's pending-change semantics are not visible.
- Core Data's merge behaviour when a second row is inserted with an existing id is not modelled: the Core Data save replaces the map entry for that id.
- SwiftData's enforcement of `@Attribute(.unique)` is not modelled. On `id` it coincides with the id-keyed upsert of `save`. On the server credential's `credentialId` it does not: the model's `SaveServerCredential` keys only on `id`, so a new id with an existing credential id leaves two objects, and `FetchServerCredentialByCredentialId` then returns one of them.
- Core Data fetch and count failures are not modelled: `context.fetch`, `context.count` and the batch delete can throw, and the error reaches the caller unchanged. The Core Data fetch, update, delete, delete-all, sign-count and storage-info methods therefore have no engine-failure path. Only `ValidateSchema` takes one.
- `actor` isolation, `async`/`await` and the thread-safety of the factory's static cache are left out. All operations are sequential.
- The `#available` OS check is a boolean parameter saying whether SwiftData is available.
- `Date()` is a `now` parameter.
- Dates are integers (`Primitives.Date`), where Foundation's `Date` is a `Double` count of seconds. Only the order and equality of dates are modelled, and an order-preserving embedding keeps both.
- String equality is Dafny's code-unit equality, not Swift's Unicode canonical equivalence. Two strings that differ only in normalisation ("e" followed by U+0301 against U+00E9) are equal in Swift and distinct here. The Core Data and SwiftData fetches are not affected, because their store predicates compare stored bytes. The comparisons affected are:
  - the id keys of the mock's dictionaries and the `rpId` and `credentialId` filters of `MockStorage.MockStorageManager`;
  - the name lookups and name sets of the schema comparators (`SchemaValidator.FirstTable`, `FirstColumn`, `CompareTableNames`, `CompareTableNamesWithExpected`);
  - the field comparisons of `StorageFactory.ConfigurationsEqual`.
- SchemaValidator.UniqueConstraintName: `lowercased()` is modelled by `Primitives.LowerAscii`, which maps only the letters A to Z. The result is exact for the three declared entity names, which are ASCII, and differs from Swift only for a name with non-ASCII letters.
- `timeoutInterval` is a `real` that is only compared for equality. Floating-point NaN is not modelled.
- The one-emoji default of the server credential's `emoji` attribute is left to the caller, because its exact scalar is an encoding artefact.
- Relationships and entities other than the three declared ones are left out: the model declares none. Live `NSManagedObjectModel` introspection is modelled over the attribute lists of `createManagedObjectModel`, passed in as a parameter.
- `print` logging and Codable/JSON encoding are left out.
- `Sources/DogTagStorage/DogTagStorage.swift` is not part of this model. It holds a version constant and pass-throughs to the factory.
- Package.swift and the timing assertions of the tests are left out.
- The order of issues and difference records that comes from iterating a Swift `Set` is left out. The comparators are specified by the multiset of what they report.
- The mock's fetches return records in dictionary order in the source. The model states which records are returned, each once, but not their order.
- SchemaValidator.ValidateCrossBackendCompatibility: the source calls `compareSchemas` twice on the same pair of schemas, for the issues and for the comparison result. The model uses one result for both, which is the same value.
- StorageErrors.RecoverySuggestion: states only that every case has a suggestion, not the wording of each.
- SchemaProperties.SameShapeNoIssues: requires unique table names and unique column names per table. With duplicate names the source's first-match lookup can report issues for a schema of the same shape.
- SchemaProperties.SameShapeNoDifferences: requires the same uniqueness, for the same reason.

## Findings

| source | as written | input that shows it | evidently intended | confidence | as-written member | corrected member |
|---|---|---|---|---|---|---|
| Sources/DogTagStorage/Migration/SchemaValidator.swift:285-303 | the expected ServerCredential table lists 9 columns, while the Core Data entity declares 20 attributes (Sources/DogTagStorage/CoreData/CoreDataStorageManager.swift:50-72) | any call of `validateCrossBackendCompatibility`: the Core Data schema raises 11 extra-column issues (among them `algorithm`) and the result is never valid, while Tests/DogTagStorageTests/SchemaCompatibilityTests.swift:10-41 expects a valid result | the expected table lists all 20 columns with the Core Data types and optionality | not executed | SchemaFindings.AsWrittenIncompatible | SchemaFindings.ModelTablesCompatible |
