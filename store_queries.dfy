/**
 * What the fetches both backends issue return over any set of stored
 * values. Core Data builds them as fetch requests and SwiftData as fetch
 * descriptors; both run through the same engine model, so each result is
 * stated once here.
 */
module StoreQueries {
  import opened Primitives
  import opened FetchRequests
  import opened CredentialModel
  import opened ServerCredentialModel
  import opened VirtualKeyModel

  /** Fetch-all for credentials ordered by `createdAt`, newest first: every row, as often as it is held. */
  lemma AllCredentialsResult(rows: seq<CredentialData>)
    ensures var r := Run(MatchAll, [SortDescriptor("createdAt", false)], 0, rows, CredentialModel.Field);
      multiset(r) == multiset(rows) && SortedBy(r, CredentialModel.CreatedAtKey, false)
  {
    var d := SortDescriptor("createdAt", false);
    var r := Run(MatchAll, [d], 0, rows, CredentialModel.Field);
    RunAll([d], rows, CredentialModel.Field);
    forall x: CredentialData ensures DescriptorKey(CredentialModel.Field, d)(x) == CredentialModel.CreatedAtKey(x) {
      assert DescriptorKey(CredentialModel.Field, d)(x) == KeyOf(CredentialModel.Field(x, "createdAt"));
    }
    SortedBySameKeys(r, DescriptorKey(CredentialModel.Field, d), CredentialModel.CreatedAtKey, false);
  }

  /** The credentials of one relying party, newest first: exactly the rows with that `rpId`. */
  lemma CredentialsForRelyingPartyResult(rows: seq<CredentialData>, rpId: string)
    ensures var r := Run(TextEquals("rpId", rpId), [SortDescriptor("createdAt", false)], 0, rows, CredentialModel.Field);
      && (forall x :: x in r <==> x in rows && x.rpId == rpId)
      && multiset(r) <= multiset(rows)
      && SortedBy(r, CredentialModel.CreatedAtKey, false)
  {
    var d := SortDescriptor("createdAt", false);
    var r := Run(TextEquals("rpId", rpId), [d], 0, rows, CredentialModel.Field);
    RunSelects(TextEquals("rpId", rpId), [d], rows, CredentialModel.Field);
    RunWithinRows(TextEquals("rpId", rpId), [d], 0, rows, CredentialModel.Field);
    forall x: CredentialData
      ensures CredentialModel.Field(x, "rpId") == Text(x.rpId)
      ensures DescriptorKey(CredentialModel.Field, d)(x) == CredentialModel.CreatedAtKey(x)
    {
      assert DescriptorKey(CredentialModel.Field, d)(x) == KeyOf(CredentialModel.Field(x, "createdAt"));
    }
    SortedBySameKeys(r, DescriptorKey(CredentialModel.Field, d), CredentialModel.CreatedAtKey, false);
  }

  /** Fetch-all for server credentials ordered by `createdAt`, newest first. */
  lemma AllServerCredentialsResult(rows: seq<ServerCredentialData>)
    ensures var r := Run(MatchAll, [SortDescriptor("createdAt", false)], 0, rows, ServerCredentialModel.Field);
      multiset(r) == multiset(rows) && SortedBy(r, ServerCredentialModel.CreatedAtKey, false)
  {
    var d := SortDescriptor("createdAt", false);
    var r := Run(MatchAll, [d], 0, rows, ServerCredentialModel.Field);
    RunAll([d], rows, ServerCredentialModel.Field);
    forall x: ServerCredentialData
      ensures DescriptorKey(ServerCredentialModel.Field, d)(x) == ServerCredentialModel.CreatedAtKey(x)
    {
      assert DescriptorKey(ServerCredentialModel.Field, d)(x) == KeyOf(ServerCredentialModel.Field(x, "createdAt"));
    }
    SortedBySameKeys(r, DescriptorKey(ServerCredentialModel.Field, d), ServerCredentialModel.CreatedAtKey, false);
  }

  /** A lookup by credential id limited to one row: none exactly when no row carries that credential id. */
  lemma CredentialIdFirstResult(rows: seq<ServerCredentialData>, credentialId: string)
    ensures var r := Run(TextEquals("credentialId", credentialId), [], 1, rows, ServerCredentialModel.Field);
      && |r| <= 1
      && (r == [] <==> forall x :: x in rows ==> x.credentialId != credentialId)
      && (forall x :: x in r ==> x in rows && x.credentialId == credentialId)
  {
    RunFirst(TextEquals("credentialId", credentialId), [], 1, rows, ServerCredentialModel.Field);
    forall x: ServerCredentialData
      ensures ServerCredentialModel.Field(x, "credentialId") == Text(x.credentialId)
    {
    }
  }

  /** A lookup by credential id without a limit: exactly the rows carrying that credential id. */
  lemma CredentialIdAllResult(rows: seq<ServerCredentialData>, credentialId: string)
    ensures var r := Run(TextEquals("credentialId", credentialId), [], 0, rows, ServerCredentialModel.Field);
      forall x :: x in r <==> x in rows && x.credentialId == credentialId
  {
    RunSelects(TextEquals("credentialId", credentialId), [], rows, ServerCredentialModel.Field);
    forall x: ServerCredentialData
      ensures ServerCredentialModel.Field(x, "credentialId") == Text(x.credentialId)
    {
    }
  }

  /** Fetch-all for virtual keys ordered by `createdAt`, newest first. */
  lemma AllVirtualKeysResult(rows: seq<VirtualKeyData>)
    ensures var r := Run(MatchAll, [SortDescriptor("createdAt", false)], 0, rows, VirtualKeyModel.Field);
      multiset(r) == multiset(rows) && SortedBy(r, VirtualKeyModel.CreatedAtKey, false)
  {
    var d := SortDescriptor("createdAt", false);
    var r := Run(MatchAll, [d], 0, rows, VirtualKeyModel.Field);
    RunAll([d], rows, VirtualKeyModel.Field);
    forall x: VirtualKeyData ensures DescriptorKey(VirtualKeyModel.Field, d)(x) == VirtualKeyModel.CreatedAtKey(x) {
      VirtualKeyModel.CreatedAtField(x);
      assert DescriptorKey(VirtualKeyModel.Field, d)(x) == KeyOf(VirtualKeyModel.Field(x, "createdAt"));
    }
    SortedBySameKeys(r, DescriptorKey(VirtualKeyModel.Field, d), VirtualKeyModel.CreatedAtKey, false);
  }

  /** The active keys ordered by `createdAt`, newest first: exactly the rows with `isActive` set. */
  lemma ActiveKeysNewestFirstResult(rows: seq<VirtualKeyData>)
    ensures var r := Run(FlagIsTrue("isActive"), [SortDescriptor("createdAt", false)], 0, rows, VirtualKeyModel.Field);
      && (forall x :: x in r <==> x in rows && x.isActive)
      && multiset(r) <= multiset(rows)
      && SortedBy(r, VirtualKeyModel.CreatedAtKey, false)
  {
    var d := SortDescriptor("createdAt", false);
    var r := Run(FlagIsTrue("isActive"), [d], 0, rows, VirtualKeyModel.Field);
    assert forall x :: x in r <==> x in rows && x.isActive by {
      RunSelects(FlagIsTrue("isActive"), [d], rows, VirtualKeyModel.Field);
      forall x: VirtualKeyData ensures VirtualKeyModel.Field(x, "isActive") == Flag(x.isActive) {
        VirtualKeyModel.IsActiveField(x);
      }
    }
    RunWithinRows(FlagIsTrue("isActive"), [d], 0, rows, VirtualKeyModel.Field);
    assert SortedBy(r, VirtualKeyModel.CreatedAtKey, false) by {
      forall x: VirtualKeyData ensures DescriptorKey(VirtualKeyModel.Field, d)(x) == VirtualKeyModel.CreatedAtKey(x) {
        VirtualKeyModel.CreatedAtField(x);
        assert DescriptorKey(VirtualKeyModel.Field, d)(x) == KeyOf(VirtualKeyModel.Field(x, "createdAt"));
      }
      SortedBySameKeys(r, DescriptorKey(VirtualKeyModel.Field, d), VirtualKeyModel.CreatedAtKey, false);
    }
  }
}
