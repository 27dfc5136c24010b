/**
 * The backend-neutral vocabulary every storage manager speaks: which
 * backend it is, the diagnostics record it reports, and the result of a
 * schema validation.
 */
module StorageProtocol {
  import opened Primitives

  datatype StorageBackendType = SwiftData | CoreData | Mock

  /** The enum's `String` raw value. */
  function RawValue(b: StorageBackendType): string {
    match b
    case SwiftData => "SwiftData"
    case CoreData => "CoreData"
    case Mock => "Mock"
  }

  /** `StorageBackendType(rawValue:)`: recognizes exactly the three raw values. */
  function FromRawValue(s: string): (r: Option<StorageBackendType>)
    ensures r.Some? ==> RawValue(r.value) == s
  {
    if s == "SwiftData" then Some(SwiftData)
    else if s == "CoreData" then Some(CoreData)
    else if s == "Mock" then Some(Mock)
    else None
  }

  /** Raw values round-trip, so no two backends share one. */
  lemma RawValueRoundTrip(b: StorageBackendType)
    ensures FromRawValue(RawValue(b)) == Some(b)
  {
    match b
    case SwiftData =>
    case CoreData =>
      assert RawValue(b)[0] != "SwiftData"[0];
    case Mock =>
      assert RawValue(b)[0] != "SwiftData"[0];
      assert RawValue(b)[0] != "CoreData"[0];
  }

  /** Diagnostics about a backend and its store. */
  datatype StorageInfo = StorageInfo(
    backendType: StorageBackendType,
    databasePath: string,
    databaseSize: int,
    credentialCount: int,
    serverCredentialCount: int,
    virtualKeyCount: int,
    schemaVersion: string)

  /** Outcome of a backend's schema check; issues and actions default to empty. */
  datatype SchemaValidationResult = SchemaValidationResult(
    isValid: bool,
    issues: seq<string> := [],
    recommendedActions: seq<string> := [])

  /** `SchemaValidationResult(isValid: true)`. */
  function ValidSchema(): (r: SchemaValidationResult)
    ensures r.isValid && r.issues == [] && r.recommendedActions == []
  {
    SchemaValidationResult(isValid := true)
  }
}
