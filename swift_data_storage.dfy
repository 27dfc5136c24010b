/**
 * The SwiftData storage manager over an abstract store: per entity kind, a
 * map from id to the model object holding that id. Save looks the id up
 * and rewrites the object it finds in place or inserts a new one, so there
 * is never more than one object per id; update is save; delete and the
 * sign-count update report `notFound` for an unknown id. An engine failure
 * on the call (`fault`) comes back as `operationFailed` naming the
 * operation, and leaves the store as it was.
 */
module SwiftDataStorage {
  import opened Primitives
  import opened StorageErrors
  import opened StorageProtocol
  import opened FetchRequests
  import opened CredentialModel
  import opened ServerCredentialModel
  import opened VirtualKeyModel
  import opened SDWebAuthnCredentialEntity
  import opened SDServerCredentialEntity
  import opened SDVirtualKeyEntity
  import SDCredentialMapper
  import SDServerCredentialMapper
  import SDVirtualKeyMapper
  import opened StoreQueries

  /**
   * `init(configuration:)`: a manager over the container's store, or
   * `configurationError` when the container cannot be created because of
   * `containerFailure`.
   */
  method OpenSwiftDataStorage(configuration: StorageConfiguration, containerFailure: Option<string>)
    returns (r: Result<SwiftDataStorageManager, StorageError>)
    ensures r.Failure? <==> containerFailure.Some?
    ensures r.Failure? ==>
      r.error == ConfigurationError("Failed to initialize SwiftData container: " + containerFailure.value)
    ensures r.Success? ==> fresh(r.value) && r.value.configuration == configuration && r.value.Valid()
    ensures r.Success? ==>
      r.value.credentials == map[] && r.value.serverCredentials == map[] && r.value.virtualKeys == map[]
  {
    if containerFailure.Some? {
      r := Failure(ConfigurationError("Failed to initialize SwiftData container: " + containerFailure.value));
    } else {
      var manager := new SwiftDataStorageManager(configuration);
      r := Success(manager);
    }
  }

  /** The error a failing engine call turns into under `operationFailed` wrapping. */
  function Wrapped(operation: string, reason: string): (e: StorageError)
    ensures e == OperationFailed(operation, reason)
  {
    WrapAsOperationFailed(operation, Engine(reason)).error
  }

  /** The error a delete or sign-count update reports: storage errors pass, engine errors are wrapped. */
  function Rethrown(operation: string, t: Thrown): (e: StorageError)
    ensures t.Storage? ==> e == t.error
    ensures t.Engine? ==> e == OperationFailed(operation, t.reason)
  {
    RethrowStorageErrors(operation, t).error
  }

  // Credentials

  /** What credential objects read back as, by id. */
  function CredentialsOf(rows: map<string, SDWebAuthnCredential>): map<string, CredentialData>
    reads rows.Values
  {
    map k | k in rows :: SDCredentialMapper.FromSwiftData(rows[k])
  }

  /** Storing an object under an id changes only what that id reads back as. */
  lemma CredentialsOfInsert(rows: map<string, SDWebAuthnCredential>, id: string, row: SDWebAuthnCredential)
    ensures CredentialsOf(rows[id := row]) == CredentialsOf(rows)[id := SDCredentialMapper.FromSwiftData(row)]
  {
  }

  /** Dropping an id drops only what it reads back as. */
  lemma CredentialsOfRemove(rows: map<string, SDWebAuthnCredential>, id: string)
    ensures CredentialsOf(rows - {id}) == CredentialsOf(rows) - {id}
  {
  }

  /** When every id but one reads back as before, the map is the old one with that id overwritten. */
  lemma CredentialsOfOneChanged(rows: map<string, SDWebAuthnCredential>, before: map<string, CredentialData>,
                                id: string, value: CredentialData)
    requires rows.Keys == before.Keys && id in rows
    requires forall k :: k in rows && k != id ==> SDCredentialMapper.FromSwiftData(rows[k]) == before[k]
    requires SDCredentialMapper.FromSwiftData(rows[id]) == value
    ensures CredentialsOf(rows) == before[id := value]
  {
  }

  /** Objects nobody wrote read back as before. */
  twostate lemma CredentialsUnchanged(rows: map<string, SDWebAuthnCredential>)
    requires forall k :: k in rows ==> unchanged(rows[k])
    ensures CredentialsOf(rows) == old(CredentialsOf(rows))
  {
  }

  /** `updateSwiftData` on the object stored under the credential's id: only that id reads back differently. */
  method WriteCredentialRow(rows: map<string, SDWebAuthnCredential>, c: CredentialData)
    requires c.id in rows && forall k :: k in rows ==> rows[k].id == k
    modifies rows[c.id]
    ensures rows[c.id].id == c.id
    ensures CredentialsOf(rows) == old(CredentialsOf(rows))[c.id := c]
  {
    ghost var before := CredentialsOf(rows);
    var row := rows[c.id];
    assert forall k :: k in rows && k != c.id ==> rows[k] != row;
    SDCredentialMapper.UpdateSwiftData(row, c);
    CredentialsOfOneChanged(rows, before, c.id, c);
  }

  /** The sign-count update on the object stored under `id`: the count and the last use change, nothing else. */
  method WriteSignCount(rows: map<string, SDWebAuthnCredential>, id: string, newCount: int, now: Date)
    requires id in rows && forall k :: k in rows ==> rows[k].id == k
    modifies rows[id]
    ensures rows[id].id == id
    ensures CredentialsOf(rows) ==
      old(CredentialsOf(rows))[id := CredentialModel.WithUpdatedSignCount(old(CredentialsOf(rows))[id], newCount, now)]
  {
    ghost var before := CredentialsOf(rows);
    var row := rows[id];
    assert forall k :: k in rows && k != id ==> rows[k] != row;
    row.signCount := newCount;
    row.lastUsed := Some(now);
    CredentialsOfOneChanged(rows, before, id, CredentialModel.WithUpdatedSignCount(before[id], newCount, now));
  }

  // Server credentials

  /** What server-credential objects read back as, by id. */
  function ServerCredentialsOf(rows: map<string, SDServerCredential>): map<string, ServerCredentialData>
    reads rows.Values
  {
    map k | k in rows :: SDServerCredentialMapper.FromSwiftData(rows[k])
  }

  /** Storing an object under an id changes only what that id reads back as. */
  lemma ServerCredentialsOfInsert(rows: map<string, SDServerCredential>, id: string, row: SDServerCredential)
    ensures ServerCredentialsOf(rows[id := row]) ==
      ServerCredentialsOf(rows)[id := SDServerCredentialMapper.FromSwiftData(row)]
  {
  }

  /** Dropping an id drops only what it reads back as. */
  lemma ServerCredentialsOfRemove(rows: map<string, SDServerCredential>, id: string)
    ensures ServerCredentialsOf(rows - {id}) == ServerCredentialsOf(rows) - {id}
  {
  }

  /** When every id but one reads back as before, the map is the old one with that id overwritten. */
  lemma ServerCredentialsOfOneChanged(rows: map<string, SDServerCredential>, before: map<string, ServerCredentialData>,
                                      id: string, value: ServerCredentialData)
    requires rows.Keys == before.Keys && id in rows
    requires forall k :: k in rows && k != id ==> SDServerCredentialMapper.FromSwiftData(rows[k]) == before[k]
    requires SDServerCredentialMapper.FromSwiftData(rows[id]) == value
    ensures ServerCredentialsOf(rows) == before[id := value]
  {
  }

  /** Objects nobody wrote read back as before. */
  twostate lemma ServerCredentialsUnchanged(rows: map<string, SDServerCredential>)
    requires forall k :: k in rows ==> unchanged(rows[k])
    ensures ServerCredentialsOf(rows) == old(ServerCredentialsOf(rows))
  {
  }

  /** `updateSwiftData` on the object stored under the credential's id: only that id reads back differently. */
  method WriteServerCredentialRow(rows: map<string, SDServerCredential>, c: ServerCredentialData)
    requires c.id in rows && forall k :: k in rows ==> rows[k].id == k
    modifies rows[c.id]
    ensures rows[c.id].id == c.id
    ensures ServerCredentialsOf(rows) == old(ServerCredentialsOf(rows))[c.id := c]
  {
    ghost var before := ServerCredentialsOf(rows);
    var row := rows[c.id];
    assert forall k :: k in rows && k != c.id ==> rows[k] != row;
    SDServerCredentialMapper.UpdateSwiftData(row, c);
    SDServerCredentialMapper.ReadBackIsValue(row, c);
    ServerCredentialsOfOneChanged(rows, before, c.id, c);
  }

  // Virtual keys

  /** What virtual-key objects read back as, by id. */
  function VirtualKeysOf(rows: map<string, SDVirtualKey>): map<string, VirtualKeyData>
    reads rows.Values
  {
    map k | k in rows :: SDVirtualKeyMapper.FromSwiftData(rows[k])
  }

  /** Storing an object under an id changes only what that id reads back as. */
  lemma VirtualKeysOfInsert(rows: map<string, SDVirtualKey>, id: string, row: SDVirtualKey)
    ensures VirtualKeysOf(rows[id := row]) == VirtualKeysOf(rows)[id := SDVirtualKeyMapper.FromSwiftData(row)]
  {
  }

  /** Dropping an id drops only what it reads back as. */
  lemma VirtualKeysOfRemove(rows: map<string, SDVirtualKey>, id: string)
    ensures VirtualKeysOf(rows - {id}) == VirtualKeysOf(rows) - {id}
  {
  }

  /** When every id but one reads back as before, the map is the old one with that id overwritten. */
  lemma VirtualKeysOfOneChanged(rows: map<string, SDVirtualKey>, before: map<string, VirtualKeyData>,
                                id: string, value: VirtualKeyData)
    requires rows.Keys == before.Keys && id in rows
    requires forall k :: k in rows && k != id ==> SDVirtualKeyMapper.FromSwiftData(rows[k]) == before[k]
    requires SDVirtualKeyMapper.FromSwiftData(rows[id]) == value
    ensures VirtualKeysOf(rows) == before[id := value]
  {
  }

  /** Objects nobody wrote read back as before. */
  twostate lemma VirtualKeysUnchanged(rows: map<string, SDVirtualKey>)
    requires forall k :: k in rows ==> unchanged(rows[k])
    ensures VirtualKeysOf(rows) == old(VirtualKeysOf(rows))
  {
  }

  /** `updateSwiftData` on the object stored under the key's id: only that id reads back differently. */
  method WriteVirtualKeyRow(rows: map<string, SDVirtualKey>, v: VirtualKeyData)
    requires v.id in rows && forall k :: k in rows ==> rows[k].id == k
    modifies rows[v.id]
    ensures rows[v.id].id == v.id
    ensures VirtualKeysOf(rows) == old(VirtualKeysOf(rows))[v.id := v]
  {
    ghost var before := VirtualKeysOf(rows);
    var row := rows[v.id];
    assert forall k :: k in rows && k != v.id ==> rows[k] != row;
    SDVirtualKeyMapper.UpdateSwiftData(row, v);
    VirtualKeysOfOneChanged(rows, before, v.id, v);
  }

  class SwiftDataStorageManager {
    const configuration: StorageConfiguration
    var credentials: map<string, SDWebAuthnCredential>
    var serverCredentials: map<string, SDServerCredential>
    var virtualKeys: map<string, SDVirtualKey>

    /** Every credential object sits under its own id. */
    predicate CredentialsValid()
      reads this`credentials, credentials.Values
    {
      forall k :: k in credentials ==> credentials[k].id == k
    }

    /** What the credential objects read back as, by id. */
    function Credentials(): map<string, CredentialData>
      reads this`credentials, credentials.Values
    {
      CredentialsOf(credentials)
    }

    /** Every server-credential object sits under its own id. */
    predicate ServerCredentialsValid()
      reads this`serverCredentials, serverCredentials.Values
    {
      forall k :: k in serverCredentials ==> serverCredentials[k].id == k
    }

    /** What the server-credential objects read back as, by id. */
    function ServerCredentials(): map<string, ServerCredentialData>
      reads this`serverCredentials, serverCredentials.Values
    {
      ServerCredentialsOf(serverCredentials)
    }

    /** Every virtual-key object sits under its own id. */
    predicate VirtualKeysValid()
      reads this`virtualKeys, virtualKeys.Values
    {
      forall k :: k in virtualKeys ==> virtualKeys[k].id == k
    }

    /** What the virtual-key objects read back as, by id. */
    function VirtualKeys(): map<string, VirtualKeyData>
      reads this`virtualKeys, virtualKeys.Values
    {
      VirtualKeysOf(virtualKeys)
    }

    predicate Valid()
      reads this`credentials, credentials.Values, this`serverCredentials, serverCredentials.Values
      reads this`virtualKeys, virtualKeys.Values
    {
      CredentialsValid() && ServerCredentialsValid() && VirtualKeysValid()
    }

    /** The manager over a store with no objects. */
    constructor (configuration: StorageConfiguration)
      ensures this.configuration == configuration && Valid()
      ensures credentials == map[] && serverCredentials == map[] && virtualKeys == map[]
    {
      this.configuration := configuration;
      credentials := map[];
      serverCredentials := map[];
      virtualKeys := map[];
    }

    // Credential operations

    /** The stored credentials as they read back, each once, in the engine's order. */
    method CredentialValues() returns (values: seq<CredentialData>)
      requires CredentialsValid()
      ensures Distinct(values)
      ensures forall x :: x in values <==> x in Credentials().Values
    {
      var stored := Credentials();
      assert Injective(stored) by {
        forall k1, k2 | k1 in stored && k2 in stored && stored[k1] == stored[k2] ensures k1 == k2 {
          assert stored[k1].id == k1 && stored[k2].id == k2;
        }
      }
      values := ListValues(stored);
    }

    /** `fetchSwiftDataCredential(id:)`: the object whose id matches, if there is one. */
    method FetchSwiftDataCredential(id: string) returns (model: Option<SDWebAuthnCredential>)
      requires CredentialsValid()
      ensures model.Some? <==> id in credentials
      ensures model.Some? ==> model.value == credentials[id] && model.value.id == id
    {
      model := if id in credentials then Some(credentials[id]) else None;
    }

    /**
     * `saveCredential`: the object with the credential's id is rewritten in
     * place, or a new one is inserted; either way the id then reads back as
     * exactly the credential, and no other id changes.
     */
    method SaveCredential(c: CredentialData, fault: Option<string>) returns (error: Option<StorageError>)
      requires CredentialsValid()
      modifies this`credentials, credentials.Values
      ensures CredentialsValid()
      ensures fault.None? ==> error.None? && Credentials() == old(Credentials())[c.id := c]
      ensures fault.Some? ==>
        error == Some(OperationFailed("saveCredential", fault.value)) && Credentials() == old(Credentials())
    {
      if fault.Some? {
        error := Some(Wrapped("saveCredential", fault.value));
        CredentialsUnchanged(credentials);
        return;
      }
      var existing := FetchSwiftDataCredential(c.id);
      if existing.Some? {
        WriteCredentialRow(credentials, c);
      } else {
        var model := SDCredentialMapper.ToSwiftData(c);
        ghost var rows := credentials;
        credentials := credentials[c.id := model];
        CredentialsUnchanged(rows);
        CredentialsOfInsert(rows, c.id, model);
      }
      error := None;
    }

    /** `fetchCredentials()`: every stored credential once, newest first. */
    method FetchCredentials(fault: Option<string>) returns (r: Result<seq<CredentialData>, StorageError>)
      requires CredentialsValid()
      ensures fault.Some? ==> r == Failure(OperationFailed("fetchCredentials", fault.value))
      ensures fault.None? ==> r.Success?
      ensures r.Success? ==> Distinct(r.value) && SortedBy(r.value, CredentialModel.CreatedAtKey, false)
      ensures r.Success? ==> forall x :: x in r.value <==> x in Credentials().Values
    {
      if fault.Some? {
        return Failure(Wrapped("fetchCredentials", fault.value));
      }
      var values := CredentialValues();
      var models := FetchAll(FetchDescriptor(sortBy := [SortDescriptor("createdAt", false)]), values, CredentialModel.Field);
      AllCredentialsResult(values);
      DistinctSubMultiset(values, models);
      assert forall x :: x in models <==> x in multiset(values);
      r := Success(models);
    }

    /** `fetchCredential(id:)`: the credential with the id, if one is stored. */
    method FetchCredential(id: string, fault: Option<string>) returns (r: Result<Option<CredentialData>, StorageError>)
      requires CredentialsValid()
      ensures fault.Some? ==> r == Failure(OperationFailed("fetchCredential", fault.value))
      ensures fault.None? ==> r.Success? && (r.value.Some? <==> id in Credentials())
      ensures r.Success? && r.value.Some? ==> id in Credentials() && r.value.value == Credentials()[id]
    {
      if fault.Some? {
        return Failure(Wrapped("fetchCredential", fault.value));
      }
      var model := FetchSwiftDataCredential(id);
      r := Success(if model.Some? then Some(SDCredentialMapper.FromSwiftData(model.value)) else None);
    }

    /** `fetchCredentials(for:)`: exactly the relying party's credentials, newest first. */
    method FetchCredentialsFor(rpId: string, fault: Option<string>) returns (r: Result<seq<CredentialData>, StorageError>)
      requires CredentialsValid()
      ensures fault.Some? ==> r == Failure(OperationFailed("fetchCredentials(for:)", fault.value))
      ensures fault.None? ==> r.Success?
      ensures r.Success? ==> Distinct(r.value) && SortedBy(r.value, CredentialModel.CreatedAtKey, false)
      ensures r.Success? ==> forall x :: x in r.value <==> x in Credentials().Values && x.rpId == rpId
    {
      if fault.Some? {
        return Failure(Wrapped("fetchCredentials(for:)", fault.value));
      }
      var values := CredentialValues();
      var descriptor := FetchDescriptor(TextEquals("rpId", rpId), [SortDescriptor("createdAt", false)]);
      var models := FetchAll(descriptor, values, CredentialModel.Field);
      CredentialsForRelyingPartyResult(values, rpId);
      DistinctSubMultiset(values, models);
      r := Success(models);
    }

    /** `deleteCredential(id:)`: removes exactly that object, or reports that no object has the id. */
    method DeleteCredential(id: string, fault: Option<string>) returns (error: Option<StorageError>)
      requires CredentialsValid()
      modifies this`credentials
      ensures CredentialsValid()
      ensures fault.Some? ==>
        error == Some(OperationFailed("deleteCredential", fault.value)) && Credentials() == old(Credentials())
      ensures fault.None? && id in old(Credentials()) ==> error.None? && Credentials() == old(Credentials()) - {id}
      ensures fault.None? && id !in old(Credentials()) ==>
        error == Some(NotFound("Credential with id: " + id)) && Credentials() == old(Credentials())
    {
      if fault.Some? {
        error := Some(Rethrown("deleteCredential", Engine(fault.value)));
        return;
      }
      var model := FetchSwiftDataCredential(id);
      if model.None? {
        error := Some(Rethrown("deleteCredential", Storage(NotFound("Credential with id: " + id))));
        return;
      }
      CredentialsOfRemove(credentials, id);
      credentials := credentials - {id};
      CredentialsUnchanged(credentials);
      error := None;
    }

    /** `updateCredential`: the same as `saveCredential`, so an unknown id is inserted rather than reported. */
    method UpdateCredential(c: CredentialData, fault: Option<string>) returns (error: Option<StorageError>)
      requires CredentialsValid()
      modifies this`credentials, credentials.Values
      ensures CredentialsValid()
      ensures fault.None? ==> error.None? && Credentials() == old(Credentials())[c.id := c]
      ensures fault.Some? ==>
        error == Some(OperationFailed("saveCredential", fault.value)) && Credentials() == old(Credentials())
    {
      error := SaveCredential(c, fault);
    }

    /**
     * `updateSignCount`: the object takes the new count and is marked used
     * now, which is `withUpdatedSignCount` on the stored credential, or
     * `notFound` when no object has the id.
     */
    method UpdateSignCount(credentialId: string, newCount: int, now: Date, fault: Option<string>)
      returns (error: Option<StorageError>)
      requires CredentialsValid()
      modifies credentials.Values
      ensures CredentialsValid() && credentials == old(credentials)
      ensures fault.Some? ==>
        error == Some(OperationFailed("updateSignCount", fault.value)) && Credentials() == old(Credentials())
      ensures fault.None? && credentialId in old(Credentials()) ==>
        && error.None?
        && Credentials() == old(Credentials())[credentialId :=
             CredentialModel.WithUpdatedSignCount(old(Credentials())[credentialId], newCount, now)]
      ensures fault.None? && credentialId !in old(Credentials()) ==>
        error == Some(NotFound("Credential with id: " + credentialId)) && Credentials() == old(Credentials())
    {
      if fault.Some? {
        error := Some(Rethrown("updateSignCount", Engine(fault.value)));
        CredentialsUnchanged(credentials);
        return;
      }
      var model := FetchSwiftDataCredential(credentialId);
      if model.None? {
        error := Some(Rethrown("updateSignCount", Storage(NotFound("Credential with id: " + credentialId))));
        CredentialsUnchanged(credentials);
        return;
      }
      WriteSignCount(credentials, credentialId, newCount, now);
      error := None;
    }

    /** `deleteAllCredentials`: every fetched object is deleted, one by one. */
    method DeleteAllCredentials(fault: Option<string>) returns (error: Option<StorageError>)
      modifies this`credentials
      ensures fault.Some? ==>
        error == Some(OperationFailed("deleteAllCredentials", fault.value)) && credentials == old(credentials)
      ensures fault.None? ==> error.None? && credentials == map[]
    {
      if fault.Some? {
        return Some(Wrapped("deleteAllCredentials", fault.value));
      }
      var models := ListValues(credentials);
      var i := 0;
      while i < |models|
        invariant 0 <= i <= |models|
        invariant credentials == map k | k in old(credentials) && old(credentials)[k] !in models[..i] :: old(credentials)[k]
      {
        credentials := map k | k in credentials && credentials[k] != models[i] :: credentials[k];
        i := i + 1;
      }
      assert models[..i] == models;
      assert forall k :: k in old(credentials) ==> old(credentials)[k] in old(credentials).Values;
      error := None;
    }

    // Server credential operations

    /** The stored server credentials as they read back, each once, in the engine's order. */
    method ServerCredentialValues() returns (values: seq<ServerCredentialData>)
      requires ServerCredentialsValid()
      ensures Distinct(values)
      ensures forall x :: x in values <==> x in ServerCredentials().Values
    {
      var stored := ServerCredentials();
      assert Injective(stored) by {
        forall k1, k2 | k1 in stored && k2 in stored && stored[k1] == stored[k2] ensures k1 == k2 {
          assert stored[k1].id == k1 && stored[k2].id == k2;
        }
      }
      values := ListValues(stored);
    }

    /** `fetchSwiftDataServerCredential(id:)`: the object whose id matches, if there is one. */
    method FetchSwiftDataServerCredential(id: string) returns (model: Option<SDServerCredential>)
      requires ServerCredentialsValid()
      ensures model.Some? <==> id in serverCredentials
      ensures model.Some? ==> model.value == serverCredentials[id] && model.value.id == id
    {
      model := if id in serverCredentials then Some(serverCredentials[id]) else None;
    }

    /** `saveServerCredential`: rewrite in place or insert; the id then reads back as exactly the value. */
    method SaveServerCredential(c: ServerCredentialData, fault: Option<string>) returns (error: Option<StorageError>)
      requires ServerCredentialsValid()
      modifies this`serverCredentials, serverCredentials.Values
      ensures ServerCredentialsValid()
      ensures fault.None? ==> error.None? && ServerCredentials() == old(ServerCredentials())[c.id := c]
      ensures fault.Some? ==>
        && error == Some(OperationFailed("saveServerCredential", fault.value))
        && ServerCredentials() == old(ServerCredentials())
    {
      if fault.Some? {
        error := Some(Wrapped("saveServerCredential", fault.value));
        ServerCredentialsUnchanged(serverCredentials);
        return;
      }
      var existing := FetchSwiftDataServerCredential(c.id);
      if existing.Some? {
        WriteServerCredentialRow(serverCredentials, c);
      } else {
        var model := SDServerCredentialMapper.ToSwiftData(c);
        ghost var rows := serverCredentials;
        serverCredentials := serverCredentials[c.id := model];
        ServerCredentialsUnchanged(rows);
        ServerCredentialsOfInsert(rows, c.id, model);
      }
      error := None;
    }

    /** `fetchServerCredentials()`: every stored server credential once, newest first. */
    method FetchServerCredentials(fault: Option<string>) returns (r: Result<seq<ServerCredentialData>, StorageError>)
      requires ServerCredentialsValid()
      ensures fault.Some? ==> r == Failure(OperationFailed("fetchServerCredentials", fault.value))
      ensures fault.None? ==> r.Success?
      ensures r.Success? ==> Distinct(r.value) && SortedBy(r.value, ServerCredentialModel.CreatedAtKey, false)
      ensures r.Success? ==> forall x :: x in r.value <==> x in ServerCredentials().Values
    {
      if fault.Some? {
        return Failure(Wrapped("fetchServerCredentials", fault.value));
      }
      var values := ServerCredentialValues();
      var models := FetchAll(FetchDescriptor(sortBy := [SortDescriptor("createdAt", false)]), values,
                             ServerCredentialModel.Field);
      AllServerCredentialsResult(values);
      DistinctSubMultiset(values, models);
      assert forall x :: x in models <==> x in multiset(values);
      r := Success(models);
    }

    /** `fetchServerCredential(id:)`: the server credential with the id, if one is stored. */
    method FetchServerCredential(id: string, fault: Option<string>)
      returns (r: Result<Option<ServerCredentialData>, StorageError>)
      requires ServerCredentialsValid()
      ensures fault.Some? ==> r == Failure(OperationFailed("fetchServerCredential", fault.value))
      ensures fault.None? ==> r.Success? && (r.value.Some? <==> id in ServerCredentials())
      ensures r.Success? && r.value.Some? ==> id in ServerCredentials() && r.value.value == ServerCredentials()[id]
    {
      if fault.Some? {
        return Failure(Wrapped("fetchServerCredential", fault.value));
      }
      var model := FetchSwiftDataServerCredential(id);
      r := Success(if model.Some? then Some(SDServerCredentialMapper.FromSwiftData(model.value)) else None);
    }

    /**
     * `fetchServerCredential(credentialId:)`: the first of the objects
     * carrying the credential id, if any does.
     */
    method FetchServerCredentialByCredentialId(credentialId: string, fault: Option<string>)
      returns (r: Result<Option<ServerCredentialData>, StorageError>)
      requires ServerCredentialsValid()
      ensures fault.Some? ==> r == Failure(OperationFailed("fetchServerCredential(credentialId:)", fault.value))
      ensures fault.None? ==> r.Success?
      ensures r.Success? ==>
        (r.value.None? <==> forall x :: x in ServerCredentials().Values ==> x.credentialId != credentialId)
      ensures r.Success? && r.value.Some? ==>
        r.value.value in ServerCredentials().Values && r.value.value.credentialId == credentialId
    {
      if fault.Some? {
        return Failure(Wrapped("fetchServerCredential(credentialId:)", fault.value));
      }
      var values := ServerCredentialValues();
      var models := FetchAll(FetchDescriptor(TextEquals("credentialId", credentialId), []), values,
                             ServerCredentialModel.Field);
      CredentialIdAllResult(values, credentialId);
      if models == [] {
        r := Success(None);
      } else {
        assert models[0] in models;
        r := Success(Some(models[0]));
      }
    }

    /** `deleteServerCredential(id:)`: removes exactly that object, or reports that no object has the id. */
    method DeleteServerCredential(id: string, fault: Option<string>) returns (error: Option<StorageError>)
      requires ServerCredentialsValid()
      modifies this`serverCredentials
      ensures ServerCredentialsValid()
      ensures fault.Some? ==>
        && error == Some(OperationFailed("deleteServerCredential", fault.value))
        && ServerCredentials() == old(ServerCredentials())
      ensures fault.None? && id in old(ServerCredentials()) ==>
        error.None? && ServerCredentials() == old(ServerCredentials()) - {id}
      ensures fault.None? && id !in old(ServerCredentials()) ==>
        && error == Some(NotFound("Server credential with id: " + id))
        && ServerCredentials() == old(ServerCredentials())
    {
      if fault.Some? {
        error := Some(Rethrown("deleteServerCredential", Engine(fault.value)));
        return;
      }
      var model := FetchSwiftDataServerCredential(id);
      if model.None? {
        error := Some(Rethrown("deleteServerCredential", Storage(NotFound("Server credential with id: " + id))));
        return;
      }
      ServerCredentialsOfRemove(serverCredentials, id);
      serverCredentials := serverCredentials - {id};
      ServerCredentialsUnchanged(serverCredentials);
      error := None;
    }

    /** `updateServerCredential`: the same as `saveServerCredential`. */
    method UpdateServerCredential(c: ServerCredentialData, fault: Option<string>) returns (error: Option<StorageError>)
      requires ServerCredentialsValid()
      modifies this`serverCredentials, serverCredentials.Values
      ensures ServerCredentialsValid()
      ensures fault.None? ==> error.None? && ServerCredentials() == old(ServerCredentials())[c.id := c]
      ensures fault.Some? ==>
        && error == Some(OperationFailed("saveServerCredential", fault.value))
        && ServerCredentials() == old(ServerCredentials())
    {
      error := SaveServerCredential(c, fault);
    }

    /** `deleteAllServerCredentials`: every fetched object is deleted, one by one. */
    method DeleteAllServerCredentials(fault: Option<string>) returns (error: Option<StorageError>)
      modifies this`serverCredentials
      ensures fault.Some? ==>
        && error == Some(OperationFailed("deleteAllServerCredentials", fault.value))
        && serverCredentials == old(serverCredentials)
      ensures fault.None? ==> error.None? && serverCredentials == map[]
    {
      if fault.Some? {
        return Some(Wrapped("deleteAllServerCredentials", fault.value));
      }
      var models := ListValues(serverCredentials);
      var i := 0;
      while i < |models|
        invariant 0 <= i <= |models|
        invariant serverCredentials ==
          map k | k in old(serverCredentials) && old(serverCredentials)[k] !in models[..i] :: old(serverCredentials)[k]
      {
        serverCredentials := map k | k in serverCredentials && serverCredentials[k] != models[i] :: serverCredentials[k];
        i := i + 1;
      }
      assert models[..i] == models;
      assert forall k :: k in old(serverCredentials) ==> old(serverCredentials)[k] in old(serverCredentials).Values;
      error := None;
    }

    // Virtual key operations

    /** The stored virtual keys as they read back, each once, in the engine's order. */
    method VirtualKeyValues() returns (values: seq<VirtualKeyData>)
      requires VirtualKeysValid()
      ensures Distinct(values)
      ensures forall x :: x in values <==> x in VirtualKeys().Values
    {
      var stored := VirtualKeys();
      assert Injective(stored) by {
        forall k1, k2 | k1 in stored && k2 in stored && stored[k1] == stored[k2] ensures k1 == k2 {
          assert stored[k1].id == k1 && stored[k2].id == k2;
        }
      }
      values := ListValues(stored);
    }

    /** `fetchSwiftDataVirtualKey(id:)`: the object whose id matches, if there is one. */
    method FetchSwiftDataVirtualKey(id: string) returns (model: Option<SDVirtualKey>)
      requires VirtualKeysValid()
      ensures model.Some? <==> id in virtualKeys
      ensures model.Some? ==> model.value == virtualKeys[id] && model.value.id == id
    {
      model := if id in virtualKeys then Some(virtualKeys[id]) else None;
    }

    /** `saveVirtualKey`: rewrite in place or insert; the id then reads back as exactly the key. */
    method SaveVirtualKey(v: VirtualKeyData, fault: Option<string>) returns (error: Option<StorageError>)
      requires VirtualKeysValid()
      modifies this`virtualKeys, virtualKeys.Values
      ensures VirtualKeysValid()
      ensures fault.None? ==> error.None? && VirtualKeys() == old(VirtualKeys())[v.id := v]
      ensures fault.Some? ==>
        error == Some(OperationFailed("saveVirtualKey", fault.value)) && VirtualKeys() == old(VirtualKeys())
    {
      if fault.Some? {
        error := Some(Wrapped("saveVirtualKey", fault.value));
        VirtualKeysUnchanged(virtualKeys);
        return;
      }
      var existing := FetchSwiftDataVirtualKey(v.id);
      if existing.Some? {
        WriteVirtualKeyRow(virtualKeys, v);
      } else {
        var model := SDVirtualKeyMapper.ToSwiftData(v);
        ghost var rows := virtualKeys;
        virtualKeys := virtualKeys[v.id := model];
        VirtualKeysUnchanged(rows);
        VirtualKeysOfInsert(rows, v.id, model);
      }
      error := None;
    }

    /** `fetchVirtualKeys()`: every stored key once, newest first. */
    method FetchVirtualKeys(fault: Option<string>) returns (r: Result<seq<VirtualKeyData>, StorageError>)
      requires VirtualKeysValid()
      ensures fault.Some? ==> r == Failure(OperationFailed("fetchVirtualKeys", fault.value))
      ensures fault.None? ==> r.Success?
      ensures r.Success? ==> Distinct(r.value) && SortedBy(r.value, VirtualKeyModel.CreatedAtKey, false)
      ensures r.Success? ==> forall x :: x in r.value <==> x in VirtualKeys().Values
    {
      if fault.Some? {
        return Failure(Wrapped("fetchVirtualKeys", fault.value));
      }
      var values := VirtualKeyValues();
      var models := FetchAll(FetchDescriptor(sortBy := [SortDescriptor("createdAt", false)]), values, VirtualKeyModel.Field);
      AllVirtualKeysResult(values);
      DistinctSubMultiset(values, models);
      assert forall x :: x in models <==> x in multiset(values);
      r := Success(models);
    }

    /** `fetchVirtualKey(id:)`: the key with the id, if one is stored. */
    method FetchVirtualKey(id: string, fault: Option<string>) returns (r: Result<Option<VirtualKeyData>, StorageError>)
      requires VirtualKeysValid()
      ensures fault.Some? ==> r == Failure(OperationFailed("fetchVirtualKey", fault.value))
      ensures fault.None? ==> r.Success? && (r.value.Some? <==> id in VirtualKeys())
      ensures r.Success? && r.value.Some? ==> id in VirtualKeys() && r.value.value == VirtualKeys()[id]
    {
      if fault.Some? {
        return Failure(Wrapped("fetchVirtualKey", fault.value));
      }
      var model := FetchSwiftDataVirtualKey(id);
      r := Success(if model.Some? then Some(SDVirtualKeyMapper.FromSwiftData(model.value)) else None);
    }

    /** `fetchActiveVirtualKeys()`: exactly the active keys, newest first by creation. */
    method FetchActiveVirtualKeys(fault: Option<string>) returns (r: Result<seq<VirtualKeyData>, StorageError>)
      requires VirtualKeysValid()
      ensures fault.Some? ==> r == Failure(OperationFailed("fetchActiveVirtualKeys", fault.value))
      ensures fault.None? ==> r.Success?
      ensures r.Success? ==> Distinct(r.value) && SortedBy(r.value, VirtualKeyModel.CreatedAtKey, false)
      ensures r.Success? ==> forall x :: x in r.value <==> x in VirtualKeys().Values && x.isActive
    {
      if fault.Some? {
        return Failure(Wrapped("fetchActiveVirtualKeys", fault.value));
      }
      var values := VirtualKeyValues();
      var descriptor := FetchDescriptor(FlagIsTrue("isActive"), [SortDescriptor("createdAt", false)]);
      var models := FetchAll(descriptor, values, VirtualKeyModel.Field);
      ActiveKeysNewestFirstResult(values);
      DistinctSubMultiset(values, models);
      r := Success(models);
    }

    /** `deleteVirtualKey(id:)`: removes exactly that object, or reports that no object has the id. */
    method DeleteVirtualKey(id: string, fault: Option<string>) returns (error: Option<StorageError>)
      requires VirtualKeysValid()
      modifies this`virtualKeys
      ensures VirtualKeysValid()
      ensures fault.Some? ==>
        error == Some(OperationFailed("deleteVirtualKey", fault.value)) && VirtualKeys() == old(VirtualKeys())
      ensures fault.None? && id in old(VirtualKeys()) ==> error.None? && VirtualKeys() == old(VirtualKeys()) - {id}
      ensures fault.None? && id !in old(VirtualKeys()) ==>
        error == Some(NotFound("Virtual key with id: " + id)) && VirtualKeys() == old(VirtualKeys())
    {
      if fault.Some? {
        error := Some(Rethrown("deleteVirtualKey", Engine(fault.value)));
        return;
      }
      var model := FetchSwiftDataVirtualKey(id);
      if model.None? {
        error := Some(Rethrown("deleteVirtualKey", Storage(NotFound("Virtual key with id: " + id))));
        return;
      }
      VirtualKeysOfRemove(virtualKeys, id);
      virtualKeys := virtualKeys - {id};
      VirtualKeysUnchanged(virtualKeys);
      error := None;
    }

    /** `updateVirtualKey`: the same as `saveVirtualKey`. */
    method UpdateVirtualKey(v: VirtualKeyData, fault: Option<string>) returns (error: Option<StorageError>)
      requires VirtualKeysValid()
      modifies this`virtualKeys, virtualKeys.Values
      ensures VirtualKeysValid()
      ensures fault.None? ==> error.None? && VirtualKeys() == old(VirtualKeys())[v.id := v]
      ensures fault.Some? ==>
        error == Some(OperationFailed("saveVirtualKey", fault.value)) && VirtualKeys() == old(VirtualKeys())
    {
      error := SaveVirtualKey(v, fault);
    }

    /** `deleteAllVirtualKeys`: every fetched object is deleted, one by one. */
    method DeleteAllVirtualKeys(fault: Option<string>) returns (error: Option<StorageError>)
      modifies this`virtualKeys
      ensures fault.Some? ==>
        error == Some(OperationFailed("deleteAllVirtualKeys", fault.value)) && virtualKeys == old(virtualKeys)
      ensures fault.None? ==> error.None? && virtualKeys == map[]
    {
      if fault.Some? {
        return Some(Wrapped("deleteAllVirtualKeys", fault.value));
      }
      var models := ListValues(virtualKeys);
      var i := 0;
      while i < |models|
        invariant 0 <= i <= |models|
        invariant virtualKeys == map k | k in old(virtualKeys) && old(virtualKeys)[k] !in models[..i] :: old(virtualKeys)[k]
      {
        virtualKeys := map k | k in virtualKeys && virtualKeys[k] != models[i] :: virtualKeys[k];
        i := i + 1;
      }
      assert models[..i] == models;
      assert forall k :: k in old(virtualKeys) ==> old(virtualKeys)[k] in old(virtualKeys).Values;
      error := None;
    }

    // Diagnostics

    /**
     * `getStorageInfo`: the three object counts and the configuration's
     * schema version; the store's path and size on disk are given.
     */
    method GetStorageInfo(databasePath: string, databaseSize: int, fault: Option<string>)
      returns (r: Result<StorageInfo, StorageError>)
      ensures fault.Some? ==> r == Failure(OperationFailed("getStorageInfo", fault.value))
      ensures fault.None? ==> r.Success?
      ensures r.Success? ==>
        && r.value.backendType == SwiftData && r.value.schemaVersion == configuration.schemaVersion
        && r.value.databasePath == databasePath && r.value.databaseSize == databaseSize
        && r.value.credentialCount == |credentials| && r.value.serverCredentialCount == |serverCredentials|
        && r.value.virtualKeyCount == |virtualKeys|
    {
      if fault.Some? {
        return Failure(Wrapped("getStorageInfo", fault.value));
      }
      r := Success(StorageInfo(SwiftData, databasePath, databaseSize, |credentials|, |serverCredentials|,
                               |virtualKeys|, configuration.schemaVersion));
    }

    /**
     * `validateSchema`: valid when the three counts succeed; when the
     * engine fails with `fault`, one issue quoting it and two fixed actions.
     */
    method ValidateSchema(fault: Option<string>) returns (r: SchemaValidationResult)
      ensures r.isValid <==> fault.None?
      ensures r.isValid ==> r.issues == [] && r.recommendedActions == []
      ensures !r.isValid ==>
        && r.issues == ["Schema validation failed: " + fault.value]
        && r.recommendedActions == ["Verify SwiftData model definitions match expected schema",
                                    "Consider running migration if schema has changed"]
    {
      var issues: seq<string> := [];
      var recommendedActions: seq<string> := [];
      if fault.None? {
        return SchemaValidationResult(true, issues, recommendedActions);
      }
      issues := issues + ["Schema validation failed: " + fault.value];
      recommendedActions := recommendedActions + ["Verify SwiftData model definitions match expected schema"];
      recommendedActions := recommendedActions + ["Consider running migration if schema has changed"];
      r := SchemaValidationResult(false, issues, recommendedActions);
    }
  }
}
