/**
 * The Core Data storage manager over an abstract store: per entity kind,
 * a map from id to the native row holding that id. Fetches run the
 * entity's fetch requests over what the rows read back as; saves insert a
 * new row without looking for an existing one; update, delete and the
 * sign-count update report `notFound` for an unknown id.
 */
module CoreDataStorage {
  import opened Primitives
  import opened StorageErrors
  import opened StorageProtocol
  import opened FetchRequests
  import opened CredentialModel
  import opened ServerCredentialModel
  import opened VirtualKeyModel
  import opened CDWebAuthnCredentialEntity
  import opened CDServerCredentialEntity
  import opened CDVirtualKeyEntity
  import opened CDCredentialMapper
  import opened CDServerCredentialMapper
  import opened CDVirtualKeyMapper
  import opened StoreQueries

  /**
   * `init(configuration:)`: a manager over the loaded persistent store, or
   * `configurationError` when loading the store fails because of `loadFailure`.
   */
  method OpenCoreDataStorage(configuration: StorageConfiguration, loadFailure: Option<string>)
    returns (r: Result<CoreDataStorageManager, StorageError>)
    ensures r.Failure? <==> loadFailure.Some?
    ensures r.Failure? ==> r.error == ConfigurationError("Failed to load persistent store: " + loadFailure.value)
    ensures r.Success? ==> fresh(r.value) && r.value.configuration == configuration && r.value.Valid()
    ensures r.Success? ==>
      r.value.credentials == map[] && r.value.serverCredentials == map[] && r.value.virtualKeys == map[]
  {
    if loadFailure.Some? {
      r := Failure(ConfigurationError("Failed to load persistent store: " + loadFailure.value));
    } else {
      var manager := new CoreDataStorageManager(configuration);
      r := Success(manager);
    }
  }

  /** The request `fetchServerCredential(credentialId:)` builds: equal credential id, at most one row. */
  method CredentialIdRequest(credentialId: string) returns (request: FetchRequest)
    ensures fresh(request)
    ensures request.entityName == CDServerCredentialEntity.EntityName
    ensures request.filter == TextEquals("credentialId", credentialId)
    ensures request.sortDescriptors == [] && request.fetchLimit == 1
  {
    request := CDServerCredentialEntity.AllRowsRequest();
    request.filter := TextEquals("credentialId", credentialId);
    request.fetchLimit := 1;
  }

  /** What credential rows read back as, by id. */
  function CredentialsOf(rows: map<string, CDWebAuthnCredential>): map<string, CredentialData>
    reads rows.Values
  {
    map k | k in rows :: ToCredentialData(rows[k])
  }

  /** Storing a row under an id changes only what that id reads back as. */
  lemma CredentialsOfInsert(rows: map<string, CDWebAuthnCredential>, id: string, row: CDWebAuthnCredential)
    ensures CredentialsOf(rows[id := row]) == CredentialsOf(rows)[id := ToCredentialData(row)]
  {
  }

  /** Dropping an id drops only what it reads back as. */
  lemma CredentialsOfRemove(rows: map<string, CDWebAuthnCredential>, id: string)
    ensures CredentialsOf(rows - {id}) == CredentialsOf(rows) - {id}
  {
  }

  /** Rows nobody wrote read back as before. */
  twostate lemma CredentialsUnchanged(rows: map<string, CDWebAuthnCredential>)
    requires forall k :: k in rows ==> unchanged(rows[k])
    ensures CredentialsOf(rows) == old(CredentialsOf(rows))
  {
  }


  /** What server-credential rows read back as, by id. */
  function ServerCredentialsOf(rows: map<string, CDServerCredential>): map<string, ServerCredentialData>
    reads rows.Values
  {
    map k | k in rows :: ToServerCredentialData(rows[k])
  }

  /** Storing a row under an id changes only what that id reads back as. */
  lemma ServerCredentialsOfInsert(rows: map<string, CDServerCredential>, id: string, row: CDServerCredential)
    ensures ServerCredentialsOf(rows[id := row]) == ServerCredentialsOf(rows)[id := ToServerCredentialData(row)]
  {
  }

  /** Dropping an id drops only what it reads back as. */
  lemma ServerCredentialsOfRemove(rows: map<string, CDServerCredential>, id: string)
    ensures ServerCredentialsOf(rows - {id}) == ServerCredentialsOf(rows) - {id}
  {
  }

  /** When every id but one reads back as before, the map is the old one with that id overwritten. */
  lemma ServerCredentialsOfOneChanged(rows: map<string, CDServerCredential>, before: map<string, ServerCredentialData>,
                                      id: string, value: ServerCredentialData)
    requires rows.Keys == before.Keys && id in rows
    requires forall k :: k in rows && k != id ==> ToServerCredentialData(rows[k]) == before[k]
    requires ToServerCredentialData(rows[id]) == value
    ensures ServerCredentialsOf(rows) == before[id := value]
  {
  }

  /**
   * Rewrites the row stored under `id` from a server credential, keeping its
   * `createdAt`: only that id reads back differently, and every row still
   * sits under its own id.
   */
  method WriteServerCredentialRow(rows: map<string, CDServerCredential>, c: ServerCredentialData)
    requires c.id in rows && forall k :: k in rows ==> rows[k].id == k
    requires CDServerCredentialMapper.Storable(c)
    modifies rows[c.id]
    ensures rows[c.id].id == c.id
    ensures ServerCredentialsOf(rows) ==
      old(ServerCredentialsOf(rows))[c.id := CDServerCredentialMapper.StoredForm(c).(createdAt := old(rows[c.id].createdAt))]
  {
    ghost var before := ServerCredentialsOf(rows);
    var row := rows[c.id];
    ghost var kept := CDServerCredentialMapper.StoredForm(c).(createdAt := row.createdAt);
    assert forall k :: k in rows && k != c.id ==> rows[k] != row;
    UpdateCDServerCredential(row, c);
    CDServerCredentialMapper.ReadBackIsStoredForm(row, c);
    ServerCredentialsOfOneChanged(rows, before, c.id, kept);
  }

  /** Rows nobody wrote read back as before. */
  twostate lemma ServerCredentialsUnchanged(rows: map<string, CDServerCredential>)
    requires forall k :: k in rows ==> unchanged(rows[k])
    ensures ServerCredentialsOf(rows) == old(ServerCredentialsOf(rows))
  {
  }


  /** What virtual-key rows read back as, by id. */
  function VirtualKeysOf(rows: map<string, CDVirtualKey>): map<string, VirtualKeyData>
    reads rows.Values
  {
    map k | k in rows :: ToVirtualKeyData(rows[k])
  }

  /** Storing a row under an id changes only what that id reads back as. */
  lemma VirtualKeysOfInsert(rows: map<string, CDVirtualKey>, id: string, row: CDVirtualKey)
    ensures VirtualKeysOf(rows[id := row]) == VirtualKeysOf(rows)[id := ToVirtualKeyData(row)]
  {
  }

  /** Dropping an id drops only what it reads back as. */
  lemma VirtualKeysOfRemove(rows: map<string, CDVirtualKey>, id: string)
    ensures VirtualKeysOf(rows - {id}) == VirtualKeysOf(rows) - {id}
  {
  }

  /** When every id but one reads back as before, the map is the old one with that id overwritten. */
  lemma VirtualKeysOfOneChanged(rows: map<string, CDVirtualKey>, before: map<string, VirtualKeyData>,
                                id: string, value: VirtualKeyData)
    requires rows.Keys == before.Keys && id in rows
    requires forall k :: k in rows && k != id ==> ToVirtualKeyData(rows[k]) == before[k]
    requires ToVirtualKeyData(rows[id]) == value
    ensures VirtualKeysOf(rows) == before[id := value]
  {
  }

  /** Rewrites the row stored under the key's id: only that id reads back differently. */
  method WriteVirtualKeyRow(rows: map<string, CDVirtualKey>, v: VirtualKeyData)
    requires v.id in rows && forall k :: k in rows ==> rows[k].id == k
    requires CDVirtualKeyMapper.Storable(v)
    modifies rows[v.id]
    ensures rows[v.id].id == v.id
    ensures VirtualKeysOf(rows) == old(VirtualKeysOf(rows))[v.id := CDVirtualKeyMapper.StoredForm(v)]
  {
    ghost var before := VirtualKeysOf(rows);
    var row := rows[v.id];
    assert forall k :: k in rows && k != v.id ==> rows[k] != row;
    CDVirtualKeyMapper.UpdateCDVirtualKey(row, v);
    VirtualKeysOfOneChanged(rows, before, v.id, CDVirtualKeyMapper.StoredForm(v));
  }

  /** Rows nobody wrote read back as before. */
  twostate lemma VirtualKeysUnchanged(rows: map<string, CDVirtualKey>)
    requires forall k :: k in rows ==> unchanged(rows[k])
    ensures VirtualKeysOf(rows) == old(VirtualKeysOf(rows))
  {
  }


  class CoreDataStorageManager {
    const configuration: StorageConfiguration
    var credentials: map<string, CDWebAuthnCredential>
    var serverCredentials: map<string, CDServerCredential>
    var virtualKeys: map<string, CDVirtualKey>

    /** Every credential row sits under its own id. */
    predicate CredentialsValid()
      reads this`credentials, credentials.Values
    {
      forall k :: k in credentials ==> credentials[k].id == k
    }

    /** What the credential rows read back as, by id. */
    function Credentials(): map<string, CredentialData>
      reads this`credentials, credentials.Values
    {
      CredentialsOf(credentials)
    }

    /** Every server-credential row sits under its own id. */
    predicate ServerCredentialsValid()
      reads this`serverCredentials, serverCredentials.Values
    {
      forall k :: k in serverCredentials ==> serverCredentials[k].id == k
    }

    /** What the server-credential rows read back as, by id. */
    function ServerCredentials(): map<string, ServerCredentialData>
      reads this`serverCredentials, serverCredentials.Values
    {
      ServerCredentialsOf(serverCredentials)
    }

    /** Every virtual-key row sits under its own id. */
    predicate VirtualKeysValid()
      reads this`virtualKeys, virtualKeys.Values
    {
      forall k :: k in virtualKeys ==> virtualKeys[k].id == k
    }

    /** What the virtual-key rows read back as, by id. */
    function VirtualKeys(): map<string, VirtualKeyData>
      reads this`virtualKeys, virtualKeys.Values
    {
      VirtualKeysOf(virtualKeys)
    }

    predicate Valid()
      reads this, credentials.Values, serverCredentials.Values, virtualKeys.Values
    {
      CredentialsValid() && ServerCredentialsValid() && VirtualKeysValid()
    }

    /** `init(configuration:)` once the store has loaded: a store with no rows. */
    constructor (configuration: StorageConfiguration)
      ensures this.configuration == configuration && Valid()
      ensures credentials == map[] && serverCredentials == map[] && virtualKeys == map[]
    {
      this.configuration := configuration;
      credentials := map[];
      serverCredentials := map[];
      virtualKeys := map[];
    }

    /** The stored rows as `toCredentialDataArray` reads them back, each once, in the engine's order. */
    method CredentialValues() returns (values: seq<CredentialData>)
      requires CredentialsValid()
      ensures Distinct(values)
      ensures forall x :: x in values <==> x in Credentials().Values
    {
      var stored := Credentials();
      assert Injective(stored) by {
        forall k1, k2 | k1 in stored && k2 in stored && stored[k1] == stored[k2] ensures k1 == k2 {
          assert stored[k1].id == k1 && stored[k2].id == k2;
        }
      }
      values := ListValues(stored);
    }

    /** `saveCredential`: a new row for the credential, whether or not its id is already stored. */
    method SaveCredential(c: CredentialData)
      requires CredentialsValid() && CDCredentialMapper.Storable(c)
      modifies this`credentials
      ensures CredentialsValid()
      ensures c.id in credentials && fresh(credentials[c.id])
      ensures Credentials() == old(Credentials())[c.id := c]
    {
      var row := FromCredentialData(c);
      ghost var rows := credentials;
      credentials := credentials[c.id := row];
      CredentialsUnchanged(rows);
      CredentialsOfInsert(rows, c.id, row);
    }

    /** `fetchCredential(id:)`: the credential with the id, if one is stored. */
    method FetchCredential(id: string) returns (r: Option<CredentialData>)
      requires CredentialsValid()
      ensures r.Some? <==> id in Credentials()
      ensures r.Some? ==> r.value == Credentials()[id]
    {
      var request := CDWebAuthnCredentialEntity.RequestById(id);
      var values := CredentialValues();
      var results := Execute(request, values, CredentialModel.Field);
      CDWebAuthnCredentialEntity.IdRequestResult(values, id);
      r := if results == [] then None else Some(results[0]);
      if id in Credentials() {
        assert Credentials()[id] in values;
      }
      if results != [] {
        assert results[0] in results;
      }
    }

    /** `fetchCredentials(for:)`: exactly the relying party's credentials, newest first. */
    method FetchCredentialsFor(rpId: string) returns (r: seq<CredentialData>)
      requires CredentialsValid()
      ensures Distinct(r) && SortedBy(r, CredentialModel.CreatedAtKey, false)
      ensures forall x :: x in r <==> x in Credentials().Values && x.rpId == rpId
    {
      var request := CDWebAuthnCredentialEntity.RequestForRelyingParty(rpId);
      var values := CredentialValues();
      r := Execute(request, values, CredentialModel.Field);
      CredentialsForRelyingPartyResult(values, rpId);
      DistinctSubMultiset(values, r);
    }

    /** `fetchCredentials()`: every stored credential once, newest first. */
    method FetchCredentials() returns (r: seq<CredentialData>)
      requires CredentialsValid()
      ensures Distinct(r) && SortedBy(r, CredentialModel.CreatedAtKey, false)
      ensures forall x :: x in r <==> x in Credentials().Values
    {
      var request := CDWebAuthnCredentialEntity.AllRowsRequest();
      request.sortDescriptors := [SortDescriptor("createdAt", false)];
      var values := CredentialValues();
      r := Execute(request, values, CredentialModel.Field);
      AllCredentialsResult(values);
      DistinctSubMultiset(values, r);
      assert forall x :: x in r <==> x in multiset(values);
    }

    /** `updateCredential`: rewrites the stored row in place, or reports that no row has the id. */
    method UpdateCredential(c: CredentialData) returns (error: Option<StorageError>)
      requires CredentialsValid() && (c.id in Credentials() ==> CDCredentialMapper.Storable(c))
      modifies credentials.Values
      ensures CredentialsValid() && credentials == old(credentials)
      ensures c.id in old(Credentials()) ==> error.None? && Credentials() == old(Credentials())[c.id := c]
      ensures c.id !in old(Credentials()) ==>
        error == Some(NotFound("Credential with id " + c.id + " not found")) && Credentials() == old(Credentials())
    {
      if c.id in credentials {
        var row := credentials[c.id];
        CDCredentialMapper.UpdateCDCredential(row, c);
        error := None;
      } else {
        error := Some(NotFound("Credential with id " + c.id + " not found"));
      }
    }

    /** `deleteCredential(id:)`: removes exactly that row, or reports that no row has the id. */
    method DeleteCredential(id: string) returns (error: Option<StorageError>)
      requires CredentialsValid()
      modifies this`credentials
      ensures CredentialsValid()
      ensures id in old(Credentials()) ==> error.None? && Credentials() == old(Credentials()) - {id}
      ensures id !in old(Credentials()) ==>
        error == Some(NotFound("Credential with id " + id + " not found")) && Credentials() == old(Credentials())
    {
      if id in credentials {
        CredentialsOfRemove(credentials, id);
        credentials := credentials - {id};
        CredentialsUnchanged(credentials);
        error := None;
      } else {
        error := Some(NotFound("Credential with id " + id + " not found"));
      }
    }

    /**
     * `updateSignCount`: the row takes the new count and is marked used
     * now, which is `withUpdatedSignCount` on the stored credential; the
     * count must fit the 32-bit column.
     */
    method UpdateSignCount(credentialId: string, newCount: int, now: Date) returns (error: Option<StorageError>)
      requires CredentialsValid() && (credentialId in Credentials() ==> FitsInt32(newCount))
      modifies credentials.Values
      ensures CredentialsValid() && credentials == old(credentials)
      ensures credentialId in old(Credentials()) ==>
        && error.None?
        && Credentials() == old(Credentials())[credentialId :=
             CredentialModel.WithUpdatedSignCount(old(Credentials())[credentialId], newCount, now)]
      ensures credentialId !in old(Credentials()) ==>
        error == Some(NotFound("Credential with id " + credentialId + " not found")) && Credentials() == old(Credentials())
    {
      if credentialId in credentials {
        var row := credentials[credentialId];
        assert forall k :: k in credentials && k != credentialId ==> credentials[k] != row;
        row.signCount := ToInt32(newCount);
        row.lastUsed := Some(now);
        error := None;
      } else {
        error := Some(NotFound("Credential with id " + credentialId + " not found"));
      }
    }

    /** `deleteAllCredentials`: a batch delete leaves no credential rows. */
    method DeleteAllCredentials()
      modifies this`credentials
      ensures credentials == map[]
    {
      credentials := map[];
    }
 

    /** The stored server-credential rows as they read back, each once, in the engine's order. */
    method ServerCredentialValues() returns (values: seq<ServerCredentialData>)
      requires ServerCredentialsValid()
      ensures Distinct(values)
      ensures forall x :: x in values <==> x in ServerCredentials().Values
    {
      var stored := ServerCredentials();
      assert Injective(stored) by {
        forall k1, k2 | k1 in stored && k2 in stored && stored[k1] == stored[k2] ensures k1 == k2 {
          assert stored[k1].id == k1 && stored[k2].id == k2;
        }
      }
      values := ListValues(stored);
    }

    /**
     * `saveServerCredential`: a new row for the credential, which reads
     * back in its stored form (absent flags false, absent user number 0).
     */
    method SaveServerCredential(c: ServerCredentialData)
      requires ServerCredentialsValid() && CDServerCredentialMapper.Storable(c)
      modifies this`serverCredentials
      ensures ServerCredentialsValid()
      ensures c.id in serverCredentials && fresh(serverCredentials[c.id])
      ensures ServerCredentials() == old(ServerCredentials())[c.id := CDServerCredentialMapper.StoredForm(c)]
    {
      var row := FromServerCredentialData(c);
      ghost var rows := serverCredentials;
      serverCredentials := serverCredentials[c.id := row];
      ServerCredentialsUnchanged(rows);
      ServerCredentialsOfInsert(rows, c.id, row);
    }

    /** `fetchServerCredential(id:)`: the server credential with the id, if one is stored. */
    method FetchServerCredential(id: string) returns (r: Option<ServerCredentialData>)
      requires ServerCredentialsValid()
      ensures r.Some? <==> id in ServerCredentials()
      ensures r.Some? ==> r.value == ServerCredentials()[id]
    {
      var request := CDServerCredentialEntity.RequestById(id);
      var values := ServerCredentialValues();
      var results := Execute(request, values, ServerCredentialModel.Field);
      CDServerCredentialEntity.IdRequestResult(values, id);
      r := if results == [] then None else Some(results[0]);
      if id in ServerCredentials() {
        assert ServerCredentials()[id] in values;
      }
      if results != [] {
        assert results[0] in results;
      }
    }

    /** `fetchServerCredential(credentialId:)`: some stored server credential with that credential id, if any. */
    method FetchServerCredentialByCredentialId(credentialId: string) returns (r: Option<ServerCredentialData>)
      requires ServerCredentialsValid()
      ensures r.None? <==> forall x :: x in ServerCredentials().Values ==> x.credentialId != credentialId
      ensures r.Some? ==> r.value in ServerCredentials().Values && r.value.credentialId == credentialId
    {
      var request := CredentialIdRequest(credentialId);
      var values := ServerCredentialValues();
      var results := Execute(request, values, ServerCredentialModel.Field);
      CredentialIdFirstResult(values, credentialId);
      r := if results == [] then None else Some(results[0]);
      if results != [] {
        assert results[0] in results;
      }
    }

    /** `fetchServerCredentials()`: every stored server credential once, newest first. */
    method FetchServerCredentials() returns (r: seq<ServerCredentialData>)
      requires ServerCredentialsValid()
      ensures Distinct(r) && SortedBy(r, ServerCredentialModel.CreatedAtKey, false)
      ensures forall x :: x in r <==> x in ServerCredentials().Values
    {
      var request := CDServerCredentialEntity.AllRowsRequest();
      request.sortDescriptors := [SortDescriptor("createdAt", false)];
      var values := ServerCredentialValues();
      r := Execute(request, values, ServerCredentialModel.Field);
      AllServerCredentialsResult(values);
      DistinctSubMultiset(values, r);
      assert forall x :: x in r <==> x in multiset(values);
    }

    /**
     * `updateServerCredential`: rewrites the stored row in place, keeping
     * its `createdAt`, or reports that no row has the id.
     */
    method UpdateServerCredential(c: ServerCredentialData) returns (error: Option<StorageError>)
      requires ServerCredentialsValid() && (c.id in ServerCredentials() ==> CDServerCredentialMapper.Storable(c))
      modifies serverCredentials.Values
      ensures ServerCredentialsValid() && serverCredentials == old(serverCredentials)
      ensures c.id in old(ServerCredentials()) ==>
        && error.None?
        && ServerCredentials() == old(ServerCredentials())[c.id :=
             CDServerCredentialMapper.StoredForm(c).(createdAt := old(serverCredentials[c.id].createdAt))]
      ensures c.id !in old(ServerCredentials()) ==>
        && error == Some(NotFound("Server credential with id " + c.id + " not found"))
        && ServerCredentials() == old(ServerCredentials())
    {
      if c.id in serverCredentials {
        WriteServerCredentialRow(serverCredentials, c);
        error := None;
      } else {
        error := Some(NotFound("Server credential with id " + c.id + " not found"));
      }
    }

    /** `deleteServerCredential(id:)`: removes exactly that row, or reports that no row has the id. */
    method DeleteServerCredential(id: string) returns (error: Option<StorageError>)
      requires ServerCredentialsValid()
      modifies this`serverCredentials
      ensures ServerCredentialsValid()
      ensures id in old(ServerCredentials()) ==> error.None? && ServerCredentials() == old(ServerCredentials()) - {id}
      ensures id !in old(ServerCredentials()) ==>
        && error == Some(NotFound("Server credential with id " + id + " not found"))
        && ServerCredentials() == old(ServerCredentials())
    {
      if id in serverCredentials {
        ServerCredentialsOfRemove(serverCredentials, id);
        serverCredentials := serverCredentials - {id};
        ServerCredentialsUnchanged(serverCredentials);
        error := None;
      } else {
        error := Some(NotFound("Server credential with id " + id + " not found"));
      }
    }

    /** The stored virtual-key rows as they read back, each once, in the engine's order. */
    method VirtualKeyValues() returns (values: seq<VirtualKeyData>)
      requires VirtualKeysValid()
      ensures Distinct(values)
      ensures forall x :: x in values <==> x in VirtualKeys().Values
    {
      var stored := VirtualKeys();
      assert Injective(stored) by {
        forall k1, k2 | k1 in stored && k2 in stored && stored[k1] == stored[k2] ensures k1 == k2 {
          assert stored[k1].id == k1 && stored[k2].id == k2;
        }
      }
      values := ListValues(stored);
    }

    /**
     * `saveVirtualKey`: a new row for the key, which reads back in its
     * stored form (key-derivation info only with positive integers).
     */
    method SaveVirtualKey(v: VirtualKeyData)
      requires VirtualKeysValid() && CDVirtualKeyMapper.Storable(v)
      modifies this`virtualKeys
      ensures VirtualKeysValid()
      ensures v.id in virtualKeys && fresh(virtualKeys[v.id])
      ensures VirtualKeys() == old(VirtualKeys())[v.id := CDVirtualKeyMapper.StoredForm(v)]
    {
      var row := FromVirtualKeyData(v);
      ghost var rows := virtualKeys;
      virtualKeys := virtualKeys[v.id := row];
      VirtualKeysUnchanged(rows);
      VirtualKeysOfInsert(rows, v.id, row);
    }

    /** `fetchVirtualKey(id:)`: the key with the id, if one is stored. */
    method FetchVirtualKey(id: string) returns (r: Option<VirtualKeyData>)
      requires VirtualKeysValid()
      ensures r.Some? <==> id in VirtualKeys()
      ensures r.Some? ==> r.value == VirtualKeys()[id]
    {
      var request := CDVirtualKeyEntity.RequestById(id);
      var values := VirtualKeyValues();
      var results := Execute(request, values, VirtualKeyModel.Field);
      CDVirtualKeyEntity.IdRequestResult(values, id);
      r := if results == [] then None else Some(results[0]);
      if id in VirtualKeys() {
        assert VirtualKeys()[id] in values;
      }
      if results != [] {
        assert results[0] in results;
      }
    }

    /** `fetchVirtualKeys()`: every stored key once, newest first. */
    method FetchVirtualKeys() returns (r: seq<VirtualKeyData>)
      requires VirtualKeysValid()
      ensures Distinct(r) && SortedBy(r, VirtualKeyModel.CreatedAtKey, false)
      ensures forall x :: x in r <==> x in VirtualKeys().Values
    {
      var request := CDVirtualKeyEntity.AllRowsRequest();
      request.sortDescriptors := [SortDescriptor("createdAt", false)];
      var values := VirtualKeyValues();
      r := Execute(request, values, VirtualKeyModel.Field);
      AllVirtualKeysResult(values);
      DistinctSubMultiset(values, r);
      assert forall x :: x in r <==> x in multiset(values);
    }

    /** `fetchActiveVirtualKeys()`: exactly the active keys, most recently used first. */
    method FetchActiveVirtualKeys() returns (r: seq<VirtualKeyData>)
      requires VirtualKeysValid()
      ensures Distinct(r) && SortedBy(r, VirtualKeyModel.LastUsedKey, false)
      ensures forall x :: x in r <==> x in VirtualKeys().Values && x.isActive
    {
      var request := CDVirtualKeyEntity.ActiveKeysRequest();
      var values := VirtualKeyValues();
      r := Execute(request, values, VirtualKeyModel.Field);
      CDVirtualKeyEntity.ActiveKeysRequestResult(values);
      DistinctSubMultiset(values, r);
    }

    /** `updateVirtualKey`: rewrites the stored row in place, or reports that no row has the id. */
    method UpdateVirtualKey(v: VirtualKeyData) returns (error: Option<StorageError>)
      requires VirtualKeysValid() && (v.id in VirtualKeys() ==> CDVirtualKeyMapper.Storable(v))
      modifies virtualKeys.Values
      ensures VirtualKeysValid() && virtualKeys == old(virtualKeys)
      ensures v.id in old(VirtualKeys()) ==>
        error.None? && VirtualKeys() == old(VirtualKeys())[v.id := CDVirtualKeyMapper.StoredForm(v)]
      ensures v.id !in old(VirtualKeys()) ==>
        error == Some(NotFound("Virtual key with id " + v.id + " not found")) && VirtualKeys() == old(VirtualKeys())
    {
      if v.id in virtualKeys {
        WriteVirtualKeyRow(virtualKeys, v);
        error := None;
      } else {
        error := Some(NotFound("Virtual key with id " + v.id + " not found"));
      }
    }

    /** `deleteVirtualKey(id:)`: removes exactly that row, or reports that no row has the id. */
    method DeleteVirtualKey(id: string) returns (error: Option<StorageError>)
      requires VirtualKeysValid()
      modifies this`virtualKeys
      ensures VirtualKeysValid()
      ensures id in old(VirtualKeys()) ==> error.None? && VirtualKeys() == old(VirtualKeys()) - {id}
      ensures id !in old(VirtualKeys()) ==>
        error == Some(NotFound("Virtual key with id " + id + " not found")) && VirtualKeys() == old(VirtualKeys())
    {
      if id in virtualKeys {
        VirtualKeysOfRemove(virtualKeys, id);
        virtualKeys := virtualKeys - {id};
        VirtualKeysUnchanged(virtualKeys);
        error := None;
      } else {
        error := Some(NotFound("Virtual key with id " + id + " not found"));
      }
    }

    /** `deleteAllServerCredentials`: a batch delete leaves no server-credential rows. */
    method DeleteAllServerCredentials()
      modifies this`serverCredentials
      ensures serverCredentials == map[]
    {
      serverCredentials := map[];
    }

    /** `deleteAllVirtualKeys`: a batch delete leaves no virtual-key rows. */
    method DeleteAllVirtualKeys()
      modifies this`virtualKeys
      ensures virtualKeys == map[]
    {
      virtualKeys := map[];
    }

    /**
     * `getStorageInfo`: the three row counts and a fixed schema version
     * "1.0", whatever the configuration says; the store's path and size on
     * disk are given.
     */
    method GetStorageInfo(databasePath: string, databaseSize: int) returns (info: StorageInfo)
      ensures info.backendType == CoreData && info.schemaVersion == "1.0"
      ensures info.databasePath == databasePath && info.databaseSize == databaseSize
      ensures info.credentialCount == |credentials| && info.serverCredentialCount == |serverCredentials|
      ensures info.virtualKeyCount == |virtualKeys|
    {
      info := StorageInfo(CoreData, databasePath, databaseSize, |credentials|, |serverCredentials|, |virtualKeys|, "1.0");
    }

    /**
     * `validateSchema`: valid when the three counts succeed; when the
     * engine fails with `fault`, one issue quoting it and two fixed actions.
     */
    method ValidateSchema(fault: Option<string>) returns (r: SchemaValidationResult)
      ensures r.isValid <==> fault.None?
      ensures r.isValid ==> r.issues == [] && r.recommendedActions == []
      ensures !r.isValid ==>
        && r.issues == ["Schema validation failed: " + fault.value]
        && r.recommendedActions == ["Check Core Data model integrity", "Consider database migration"]
    {
      if fault.None? {
        r := ValidSchema();
      } else {
        r := SchemaValidationResult(
          isValid := false,
          issues := ["Schema validation failed: " + fault.value],
          recommendedActions := ["Check Core Data model integrity", "Consider database migration"]);
      }
    }
  }
}
