/**
 * The storage layer's error type with its user-facing texts, the error a
 * call can throw (a storage error or an engine error passed through), and
 * the storage configuration with its presets.
 */
module StorageErrors {
  import opened Primitives

  datatype StorageError =
    | ConfigurationError(message: string)
    | ConnectionError(message: string)
    | DataCorruption(message: string)
    | MigrationFailed(message: string)
    | SchemaValidationFailed(issues: seq<string>)
    | OperationFailed(operation: string, reason: string)
    | NotFound(resource: string)
    | DuplicateKey(key: string)
    | InvalidData(reason: string)
    | UnsupportedOperation(operation: string)

  /** Swift's `joined(separator:)`. */
  function Join(parts: seq<string>, separator: string): (r: string)
    ensures |parts| == 1 ==> r == parts[0]
    ensures parts == [] ==> r == ""
  {
    if parts == [] then ""
    else if |parts| == 1 then parts[0]
    else parts[0] + separator + Join(parts[1..], separator)
  }

  function ErrorDescription(e: StorageError): string {
    match e
    case ConfigurationError(m) => "Storage configuration error: " + m
    case ConnectionError(m) => "Storage connection error: " + m
    case DataCorruption(m) => "Data corruption detected: " + m
    case MigrationFailed(m) => "Migration failed: " + m
    case SchemaValidationFailed(issues) => "Schema validation failed: " + Join(issues, ", ")
    case OperationFailed(op, reason) => "Operation '" + op + "' failed: " + reason
    case NotFound(resource) => "Resource not found: " + resource
    case DuplicateKey(key) => "Duplicate key error: " + key
    case InvalidData(reason) => "Invalid data: " + reason
    case UnsupportedOperation(op) => "Unsupported operation: " + op
  }

  /** The fixed text each case's description starts with. */
  function DescriptionPrefix(e: StorageError): string {
    match e
    case ConfigurationError(_) => "Storage configuration error: "
    case ConnectionError(_) => "Storage connection error: "
    case DataCorruption(_) => "Data corruption detected: "
    case MigrationFailed(_) => "Migration failed: "
    case SchemaValidationFailed(_) => "Schema validation failed: "
    case OperationFailed(_, _) => "Operation '"
    case NotFound(_) => "Resource not found: "
    case DuplicateKey(_) => "Duplicate key error: "
    case InvalidData(_) => "Invalid data: "
    case UnsupportedOperation(_) => "Unsupported operation: "
  }

  /** What follows the prefix: the case's payload. */
  function DescriptionPayload(e: StorageError): string {
    match e
    case ConfigurationError(m) => m
    case ConnectionError(m) => m
    case DataCorruption(m) => m
    case MigrationFailed(m) => m
    case SchemaValidationFailed(issues) => Join(issues, ", ")
    case OperationFailed(op, reason) => op + "' failed: " + reason
    case NotFound(resource) => resource
    case DuplicateKey(key) => key
    case InvalidData(reason) => reason
    case UnsupportedOperation(op) => op
  }

  /** Every description is its case's fixed prefix followed by the payload. */
  lemma DescriptionIsPrefixThenPayload(e: StorageError)
    ensures ErrorDescription(e) == DescriptionPrefix(e) + DescriptionPayload(e)
  {
    if e.OperationFailed? {
      assert "Operation '" + e.operation + "' failed: " + e.reason
          == "Operation '" + (e.operation + "' failed: " + e.reason);
    }
  }

  /** The position of a case in the enumeration. */
  function CaseIndex(e: StorageError): nat {
    match e
    case ConfigurationError(_) => 0
    case ConnectionError(_) => 1
    case DataCorruption(_) => 2
    case MigrationFailed(_) => 3
    case SchemaValidationFailed(_) => 4
    case OperationFailed(_, _) => 5
    case NotFound(_) => 6
    case DuplicateKey(_) => 7
    case InvalidData(_) => 8
    case UnsupportedOperation(_) => 9
  }

  /** Characters 0, 1 and 11 of a description identify its case. */
  lemma DescriptionSignature(e: StorageError)
    ensures |ErrorDescription(e)| > 11
    ensures var d := ErrorDescription(e);
      match e
      case ConfigurationError(_) => d[0] == 'S' && d[1] == 't' && d[11] == 'f'
      case ConnectionError(_) => d[0] == 'S' && d[1] == 't' && d[11] == 'n'
      case DataCorruption(_) => d[0] == 'D' && d[1] == 'a'
      case MigrationFailed(_) => d[0] == 'M'
      case SchemaValidationFailed(_) => d[0] == 'S' && d[1] == 'c'
      case OperationFailed(_, _) => d[0] == 'O'
      case NotFound(_) => d[0] == 'R'
      case DuplicateKey(_) => d[0] == 'D' && d[1] == 'u'
      case InvalidData(_) => d[0] == 'I'
      case UnsupportedOperation(_) => d[0] == 'U'
  {
    DescriptionIsPrefixThenPayload(e);
    var p := DescriptionPrefix(e);
    assert ErrorDescription(e)[..|p|] == p;
  }

  /** Two errors with the same description are of the same case. */
  lemma DescriptionDeterminesCase(a: StorageError, b: StorageError)
    requires ErrorDescription(a) == ErrorDescription(b)
    ensures CaseIndex(a) == CaseIndex(b)
  {
    DescriptionSignature(a);
    DescriptionSignature(b);
  }

  /** `failureReason` repeats `errorDescription`. */
  function FailureReason(e: StorageError): (r: string)
    ensures r == ErrorDescription(e)
    ensures DescriptionPrefix(e) <= r
  {
    DescriptionIsPrefixThenPayload(e);
    ErrorDescription(e)
  }

  const ConfigurationErrorSuggestion: string := "Check storage configuration settings and ensure they are valid."
  const ConnectionErrorSuggestion: string := "Verify database files exist and are accessible."
  const DataCorruptionSuggestion: string := "Try running schema validation or consider restoring from backup."
  const MigrationFailedSuggestion: string := "Review migration logs and ensure source data is valid."
  const SchemaValidationFailedSuggestion: string := "Update to compatible schema version or run migration."
  const OperationFailedSuggestion: string := "Retry the operation or check logs for more details."
  const NotFoundSuggestion: string := "Ensure the resource exists before attempting to access it."
  const DuplicateKeySuggestion: string := "Use a unique identifier or update the existing record."
  const InvalidDataSuggestion: string := "Validate input data format and content."
  const UnsupportedOperationSuggestion: string := "Use a supported operation for this storage backend."

  /** Every case carries a (non-empty) recovery suggestion. */
  function RecoverySuggestion(e: StorageError): (r: Option<string>)
    ensures r.Some?
  {
    match e
    case ConfigurationError(_) => Some(ConfigurationErrorSuggestion)
    case ConnectionError(_) => Some(ConnectionErrorSuggestion)
    case DataCorruption(_) => Some(DataCorruptionSuggestion)
    case MigrationFailed(_) => Some(MigrationFailedSuggestion)
    case SchemaValidationFailed(_) => Some(SchemaValidationFailedSuggestion)
    case OperationFailed(_, _) => Some(OperationFailedSuggestion)
    case NotFound(_) => Some(NotFoundSuggestion)
    case DuplicateKey(_) => Some(DuplicateKeySuggestion)
    case InvalidData(_) => Some(InvalidDataSuggestion)
    case UnsupportedOperation(_) => Some(UnsupportedOperationSuggestion)
  }

  /**
   * What a storage call throws: one of the layer's own errors, or an error
   * raised by the persistence engine, known only by its localized description.
   */
  datatype Thrown = Storage(error: StorageError) | Engine(reason: string)

  /** `error.localizedDescription`. */
  function LocalizedDescription(t: Thrown): string {
    match t
    case Storage(e) => ErrorDescription(e)
    case Engine(reason) => reason
  }

  /**
   * The SwiftData backend's `catch` in delete and sign-count update: a
   * storage error passes through unchanged, anything else becomes
   * `operationFailed(op, reason)`.
   */
  function RethrowStorageErrors(op: string, t: Thrown): (r: Thrown)
    ensures r.Storage?
    ensures t.Storage? ==> r == t
    ensures t.Engine? ==> r.error == OperationFailed(op, t.reason)
  {
    match t
    case Storage(_) => t
    case Engine(reason) => Storage(OperationFailed(op, reason))
  }

  /** The SwiftData backend's `catch` everywhere else: every error becomes `operationFailed`. */
  function WrapAsOperationFailed(op: string, t: Thrown): (r: Thrown)
    ensures r.Storage? && r.error.OperationFailed? && r.error.operation == op
    ensures r.error.reason == LocalizedDescription(t)
  {
    Storage(OperationFailed(op, LocalizedDescription(t)))
  }

  /** Configuration for storage backends; `timeoutInterval` is only ever compared. */
  datatype StorageConfiguration = StorageConfiguration(
    databaseName: string,
    enableLogging: bool := false,
    enableCloudSync: bool := false,
    customDatabasePath: Option<string> := None,
    schemaVersion: string := "1.0",
    maxRetryAttempts: int := 3,
    timeoutInterval: real := 30.0)

  /** `StorageConfiguration.default`. */
  function DefaultConfiguration(): (c: StorageConfiguration)
    ensures c.databaseName == "WebManStorage"
    ensures !c.enableLogging && !c.enableCloudSync && c.customDatabasePath.None?
    ensures c.schemaVersion == "1.0" && c.maxRetryAttempts == 3 && c.timeoutInterval == 30.0
  {
    StorageConfiguration(
      databaseName := "WebManStorage",
      enableLogging := false,
      enableCloudSync := false,
      customDatabasePath := None,
      schemaVersion := "1.0",
      maxRetryAttempts := 3,
      timeoutInterval := 30.0)
  }

  /** `StorageConfiguration.test`. */
  function TestConfiguration(): (c: StorageConfiguration)
    ensures c.databaseName == "WebManStorageTest"
    ensures c.enableLogging && !c.enableCloudSync && c.customDatabasePath.None?
    ensures c.schemaVersion == "1.0" && c.maxRetryAttempts == 1 && c.timeoutInterval == 5.0
  {
    StorageConfiguration(
      databaseName := "WebManStorageTest",
      enableLogging := true,
      enableCloudSync := false,
      customDatabasePath := None,
      schemaVersion := "1.0",
      maxRetryAttempts := 1,
      timeoutInterval := 5.0)
  }

  /** The initializer's defaults: given only a name, everything else is the default preset's. */
  function NamedConfiguration(databaseName: string): (c: StorageConfiguration)
    ensures c == DefaultConfiguration().(databaseName := databaseName)
  {
    StorageConfiguration(databaseName := databaseName)
  }
}
