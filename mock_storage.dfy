/**
 * The in-memory storage manager handed out for tests: three dictionaries
 * keyed by id, with upsert on save and update and silent deletes.
 */
module MockStorage {
  import opened Primitives
  import opened StorageProtocol
  import opened CredentialModel
  import opened ServerCredentialModel
  import opened VirtualKeyModel
  import FetchRequests

  class MockStorageManager {
    var credentials: map<string, CredentialData>
    var serverCredentials: map<string, ServerCredentialData>
    var virtualKeys: map<string, VirtualKeyData>

    /** Every entry sits under its own id. */
    predicate Valid()
      reads this
    {
      && (forall k :: k in credentials ==> credentials[k].id == k)
      && (forall k :: k in serverCredentials ==> serverCredentials[k].id == k)
      && (forall k :: k in virtualKeys ==> virtualKeys[k].id == k)
    }

    /** `MockStorageManager()`: all three dictionaries empty. */
    constructor ()
      ensures Valid()
      ensures credentials == map[] && serverCredentials == map[] && virtualKeys == map[]
    {
      credentials := map[];
      serverCredentials := map[];
      virtualKeys := map[];
    }

    /** `saveCredential`: an upsert keyed by id. */
    method SaveCredential(c: CredentialData)
      requires Valid()
      modifies this`credentials
      ensures Valid()
      ensures credentials == old(credentials)[c.id := c]
    {
      credentials := credentials[c.id := c];
    }

    /** `fetchCredentials`: every stored credential once, in dictionary order. */
    method FetchCredentials() returns (r: seq<CredentialData>)
      requires Valid()
      ensures |r| == |credentials| && Distinct(r)
      ensures forall x :: x in r <==> x in credentials.Values
    {
      r := ListValues(credentials);
    }

    /** `fetchCredential(id:)`: the credential stored under the id, if any. */
    method FetchCredential(id: string) returns (r: Option<CredentialData>)
      requires Valid()
      ensures r.Some? <==> id in credentials
      ensures r.Some? ==> r.value.id == id && r.value in credentials.Values
    {
      r := if id in credentials then Some(credentials[id]) else None;
    }

    /** `fetchCredentials(for:)`: exactly the stored credentials of the relying party. */
    method FetchCredentialsFor(rpId: string) returns (r: seq<CredentialData>)
      requires Valid()
      ensures Distinct(r)
      ensures forall x :: x in r <==> x in credentials.Values && x.rpId == rpId
    {
      var all := FetchCredentials();
      r := FetchRequests.Filter(all, (x: CredentialData) => x.rpId == rpId);
      FetchRequests.DistinctSubMultiset(all, r);
    }

    /** `deleteCredential(id:)`: removes the entry; an unknown id is no error. */
    method DeleteCredential(id: string)
      requires Valid()
      modifies this`credentials
      ensures Valid()
      ensures credentials == old(credentials) - {id}
    {
      credentials := credentials - {id};
    }

    /** `updateCredential`: the same upsert as save, so an unknown id is inserted. */
    method UpdateCredential(c: CredentialData)
      requires Valid()
      modifies this`credentials
      ensures Valid()
      ensures credentials == old(credentials)[c.id := c]
    {
      credentials := credentials[c.id := c];
    }

    /** `updateSignCount`: stores `withUpdatedSignCount` for a known id and does nothing otherwise. */
    method UpdateSignCount(credentialId: string, newCount: int, now: Date)
      requires Valid()
      modifies this`credentials
      ensures Valid()
      ensures credentialId in old(credentials) ==>
        credentials == old(credentials)[credentialId := CredentialModel.WithUpdatedSignCount(old(credentials)[credentialId], newCount, now)]
      ensures credentialId !in old(credentials) ==> credentials == old(credentials)
    {
      if credentialId in credentials {
        var c := credentials[credentialId];
        credentials := credentials[credentialId := CredentialModel.WithUpdatedSignCount(c, newCount, now)];
      }
    }

    /** `saveServerCredential`: an upsert keyed by id. */
    method SaveServerCredential(c: ServerCredentialData)
      requires Valid()
      modifies this`serverCredentials
      ensures Valid()
      ensures serverCredentials == old(serverCredentials)[c.id := c]
    {
      serverCredentials := serverCredentials[c.id := c];
    }

    /** `fetchServerCredentials`: every stored server credential once, in dictionary order. */
    method FetchServerCredentials() returns (r: seq<ServerCredentialData>)
      requires Valid()
      ensures |r| == |serverCredentials| && Distinct(r)
      ensures forall x :: x in r <==> x in serverCredentials.Values
    {
      r := ListValues(serverCredentials);
    }

    /** `fetchServerCredential(id:)`: the server credential stored under the id, if any. */
    method FetchServerCredential(id: string) returns (r: Option<ServerCredentialData>)
      requires Valid()
      ensures r.Some? <==> id in serverCredentials
      ensures r.Some? ==> r.value.id == id && r.value in serverCredentials.Values
    {
      r := if id in serverCredentials then Some(serverCredentials[id]) else None;
    }

    /** `fetchServerCredential(credentialId:)`: some stored entry with that credential id, or none when there is none. */
    method FetchServerCredentialByCredentialId(credentialId: string) returns (r: Option<ServerCredentialData>)
      requires Valid()
      ensures r.None? <==> forall x :: x in serverCredentials.Values ==> x.credentialId != credentialId
      ensures r.Some? ==> r.value in serverCredentials.Values && r.value.credentialId == credentialId
    {
      var all := FetchServerCredentials();
      var matching := FetchRequests.Filter(all, (x: ServerCredentialData) => x.credentialId == credentialId);
      r := if matching == [] then None else Some(matching[0]);
      if matching != [] {
        assert matching[0] in matching;
      }
    }

    /** `deleteServerCredential(id:)`: removes the entry; an unknown id is no error. */
    method DeleteServerCredential(id: string)
      requires Valid()
      modifies this`serverCredentials
      ensures Valid()
      ensures serverCredentials == old(serverCredentials) - {id}
    {
      serverCredentials := serverCredentials - {id};
    }

    /** `updateServerCredential`: the same upsert as save. */
    method UpdateServerCredential(c: ServerCredentialData)
      requires Valid()
      modifies this`serverCredentials
      ensures Valid()
      ensures serverCredentials == old(serverCredentials)[c.id := c]
    {
      serverCredentials := serverCredentials[c.id := c];
    }

    /** `saveVirtualKey`: an upsert keyed by id. */
    method SaveVirtualKey(v: VirtualKeyData)
      requires Valid()
      modifies this`virtualKeys
      ensures Valid()
      ensures virtualKeys == old(virtualKeys)[v.id := v]
    {
      virtualKeys := virtualKeys[v.id := v];
    }

    /** `fetchVirtualKeys`: every stored key once, in dictionary order. */
    method FetchVirtualKeys() returns (r: seq<VirtualKeyData>)
      requires Valid()
      ensures |r| == |virtualKeys| && Distinct(r)
      ensures forall x :: x in r <==> x in virtualKeys.Values
    {
      r := ListValues(virtualKeys);
    }

    /** `fetchVirtualKey(id:)`: the key stored under the id, if any. */
    method FetchVirtualKey(id: string) returns (r: Option<VirtualKeyData>)
      requires Valid()
      ensures r.Some? <==> id in virtualKeys
      ensures r.Some? ==> r.value.id == id && r.value in virtualKeys.Values
    {
      r := if id in virtualKeys then Some(virtualKeys[id]) else None;
    }

    /** `fetchActiveVirtualKeys`: exactly the stored keys that are active. */
    method FetchActiveVirtualKeys() returns (r: seq<VirtualKeyData>)
      requires Valid()
      ensures Distinct(r)
      ensures forall x :: x in r <==> x in virtualKeys.Values && x.isActive
    {
      var all := FetchVirtualKeys();
      r := FetchRequests.Filter(all, (x: VirtualKeyData) => x.isActive);
      FetchRequests.DistinctSubMultiset(all, r);
    }

    /** `deleteVirtualKey(id:)`: removes the entry; an unknown id is no error. */
    method DeleteVirtualKey(id: string)
      requires Valid()
      modifies this`virtualKeys
      ensures Valid()
      ensures virtualKeys == old(virtualKeys) - {id}
    {
      virtualKeys := virtualKeys - {id};
    }

    /** `updateVirtualKey`: the same upsert as save. */
    method UpdateVirtualKey(v: VirtualKeyData)
      requires Valid()
      modifies this`virtualKeys
      ensures Valid()
      ensures virtualKeys == old(virtualKeys)[v.id := v]
    {
      virtualKeys := virtualKeys[v.id := v];
    }

    /** `deleteAllCredentials`: the credentials dictionary emptied, the others untouched. */
    method DeleteAllCredentials()
      modifies this`credentials
      ensures credentials == map[]
    {
      credentials := map[];
    }

    /** `deleteAllServerCredentials`. */
    method DeleteAllServerCredentials()
      modifies this`serverCredentials
      ensures serverCredentials == map[]
    {
      serverCredentials := map[];
    }

    /** `deleteAllVirtualKeys`. */
    method DeleteAllVirtualKeys()
      modifies this`virtualKeys
      ensures virtualKeys == map[]
    {
      virtualKeys := map[];
    }

    /** `getStorageInfo`: the three dictionary sizes, an in-memory path and no size on disk. */
    method GetStorageInfo() returns (info: StorageInfo)
      ensures info.backendType == Mock && info.databasePath == "in-memory" && info.databaseSize == 0
      ensures info.credentialCount == |credentials| && info.serverCredentialCount == |serverCredentials|
      ensures info.virtualKeyCount == |virtualKeys| && info.schemaVersion == "1.0"
    {
      info := StorageInfo(Mock, "in-memory", 0, |credentials|, |serverCredentials|, |virtualKeys|, "1.0");
    }

    /** `validateSchema`: always valid, with nothing to report. */
    method ValidateSchema() returns (r: SchemaValidationResult)
      ensures r.isValid && r.issues == [] && r.recommendedActions == []
    {
      r := ValidSchema();
    }
  }
}
