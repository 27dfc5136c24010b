/**
 * The factory that hands out storage managers. Automatic selection picks
 * SwiftData where the OS offers it and Core Data otherwise, and caches the
 * manager it made together with the configuration it was made for; a later
 * request with an equal configuration gets the cached manager back. The
 * explicit-backend path builds exactly the backend asked for and bypasses
 * the cache.
 */
module StorageFactory {
  import opened Primitives
  import opened StorageErrors
  import opened StorageProtocol
  import CoreDataStorage
  import SwiftDataStorage
  import MockStorage

  /** `any StorageManager`: one of the three backends. */
  datatype AnyStorageManager =
    | SwiftDataManager(sd: SwiftDataStorage.SwiftDataStorageManager)
    | CoreDataManager(cd: CoreDataStorage.CoreDataStorageManager)
    | MockManager(mock: MockStorage.MockStorageManager)

  /** Which backend a manager is. */
  function BackendOf(m: AnyStorageManager): StorageBackendType {
    match m
    case SwiftDataManager(_) => SwiftData
    case CoreDataManager(_) => CoreData
    case MockManager(_) => Mock
  }

  /** The configuration a persistent manager was made with; the mock has none. */
  function ConfigurationOf(m: AnyStorageManager): Option<StorageConfiguration> {
    match m
    case SwiftDataManager(sd) => Some(sd.configuration)
    case CoreDataManager(cd) => Some(cd.configuration)
    case MockManager(_) => None
  }

  /** `areConfigurationsEqual`: all seven fields compared one by one. */
  function ConfigurationsEqual(lhs: StorageConfiguration, rhs: StorageConfiguration): (r: bool)
    ensures r <==> lhs == rhs
  {
    && lhs.databaseName == rhs.databaseName
    && lhs.enableLogging == rhs.enableLogging
    && lhs.enableCloudSync == rhs.enableCloudSync
    && lhs.customDatabasePath == rhs.customDatabasePath
    && lhs.schemaVersion == rhs.schemaVersion
    && lhs.maxRetryAttempts == rhs.maxRetryAttempts
    && lhs.timeoutInterval == rhs.timeoutInterval
  }

  /** The error automatic selection reports when the SwiftData manager cannot be made. */
  function SwiftDataCreationError(containerFailure: string): (e: StorageError)
    ensures e.ConfigurationError?
    ensures e.message == "Failed to create SwiftData storage manager: " + "Storage configuration error: "
      + "Failed to initialize SwiftData container: " + containerFailure
  {
    var inner := ConfigurationError("Failed to initialize SwiftData container: " + containerFailure);
    ConfigurationError("Failed to create SwiftData storage manager: " + ErrorDescription(inner))
  }

  /** The error automatic selection reports when the Core Data manager cannot be made. */
  function CoreDataCreationError(loadFailure: string): (e: StorageError)
    ensures e.ConfigurationError?
    ensures e.message == "Failed to create Core Data storage manager: " + "Storage configuration error: "
      + "Failed to load persistent store: " + loadFailure
  {
    var inner := ConfigurationError("Failed to load persistent store: " + loadFailure);
    ConfigurationError("Failed to create Core Data storage manager: " + ErrorDescription(inner))
  }

  /** `createMockStorageManager()`: a mock with nothing stored. */
  method CreateMockStorageManager() returns (m: AnyStorageManager)
    ensures m.MockManager? && fresh(m.mock) && m.mock.Valid()
    ensures m.mock.credentials == map[] && m.mock.serverCredentials == map[] && m.mock.virtualKeys == map[]
  {
    var mock := new MockStorage.MockStorageManager();
    m := MockManager(mock);
  }

  /**
   * The factory's static state. `swiftDataAvailable` stands for the OS
   * version check (macOS 14 / iOS 17 or later), fixed for the process.
   */
  class StorageFactory {
    const swiftDataAvailable: bool
    var cachedManager: Option<AnyStorageManager>
    var cachedConfiguration: Option<StorageConfiguration>

    /** The two cache slots are set and cleared together. */
    predicate Valid()
      reads this`cachedManager, this`cachedConfiguration
    {
      cachedManager.Some? <==> cachedConfiguration.Some?
    }

    /** Both cache slots empty at process start. */
    constructor (swiftDataAvailable: bool)
      ensures this.swiftDataAvailable == swiftDataAvailable
      ensures cachedManager == None && cachedConfiguration == None && Valid()
    {
      this.swiftDataAvailable := swiftDataAvailable;
      cachedManager := None;
      cachedConfiguration := None;
    }

    /** The cached manager is handed back for `configuration`. */
    predicate CacheHit(configuration: StorageConfiguration)
      reads this`cachedManager, this`cachedConfiguration
    {
      && cachedManager.Some?
      && cachedConfiguration.Some?
      && ConfigurationsEqual(cachedConfiguration.value, configuration)
    }

    /** `getAvailableBackendType()`: SwiftData where the OS offers it, Core Data otherwise. */
    function GetAvailableBackendType(): (b: StorageBackendType)
      ensures b != Mock
      ensures b == SwiftData <==> swiftDataAvailable
    {
      if swiftDataAvailable then SwiftData else CoreData
    }

    /** `isSwiftDataAvailable()`. */
    function IsSwiftDataAvailable(): (r: bool)
      ensures r <==> GetAvailableBackendType() == SwiftData
    {
      swiftDataAvailable
    }

    /**
     * `createStorageManager(configuration:)`. A cache hit returns the cached
     * manager and changes nothing. Otherwise the available backend is
     * opened (its engine failing with `openFailure` or not); success
     * caches the new manager with the configuration, failure reports
     * `configurationError` naming the backend and leaves the cache alone.
     */
    method CreateStorageManager(configuration: StorageConfiguration, openFailure: Option<string>)
      returns (r: Result<AnyStorageManager, StorageError>)
      requires Valid()
      modifies this`cachedManager, this`cachedConfiguration
      ensures Valid()
      ensures old(CacheHit(configuration)) ==>
        && r == Success(old(cachedManager).value)
        && cachedManager == old(cachedManager) && cachedConfiguration == old(cachedConfiguration)
      ensures !old(CacheHit(configuration)) ==> (r.Success? <==> openFailure.None?)
      ensures !old(CacheHit(configuration)) && r.Success? ==>
        && BackendOf(r.value) == GetAvailableBackendType()
        && ConfigurationOf(r.value) == Some(configuration)
        && (r.value.SwiftDataManager? ==> fresh(r.value.sd) && r.value.sd.Valid())
        && (r.value.CoreDataManager? ==> fresh(r.value.cd) && r.value.cd.Valid())
        && cachedManager == Some(r.value) && cachedConfiguration == Some(configuration)
      ensures !old(CacheHit(configuration)) && r.Failure? ==>
        && r.error == (if swiftDataAvailable then SwiftDataCreationError(openFailure.value)
                       else CoreDataCreationError(openFailure.value))
        && cachedManager == old(cachedManager) && cachedConfiguration == old(cachedConfiguration)
      ensures r.Success? ==> CacheHit(configuration)
    {
      if cachedManager.Some? && cachedConfiguration.Some?
         && ConfigurationsEqual(cachedConfiguration.value, configuration) {
        return Success(cachedManager.value);
      }
      var manager: AnyStorageManager;
      if swiftDataAvailable {
        var made := SwiftDataStorage.OpenSwiftDataStorage(configuration, openFailure);
        if made.Failure? {
          return Failure(ConfigurationError("Failed to create SwiftData storage manager: "
                                            + ErrorDescription(made.error)));
        }
        manager := SwiftDataManager(made.value);
      } else {
        var made := CoreDataStorage.OpenCoreDataStorage(configuration, openFailure);
        if made.Failure? {
          return Failure(ConfigurationError("Failed to create Core Data storage manager: "
                                            + ErrorDescription(made.error)));
        }
        manager := CoreDataManager(made.value);
      }
      cachedManager := Some(manager);
      cachedConfiguration := Some(configuration);
      r := Success(manager);
    }

    /**
     * `createStorageManager(backendType:configuration:)`: exactly the
     * backend asked for, never cached. SwiftData where the OS lacks it is
     * a `configurationError`; a backend's own opening error comes back as
     * it is.
     */
    method CreateStorageManagerOfType(backendType: StorageBackendType, configuration: StorageConfiguration,
                                      openFailure: Option<string>)
      returns (r: Result<AnyStorageManager, StorageError>)
      ensures backendType == SwiftData && !swiftDataAvailable ==>
        r == Failure(ConfigurationError("SwiftData is not available on this OS version"))
      ensures backendType == SwiftData && swiftDataAvailable && openFailure.Some? ==>
        r == Failure(ConfigurationError("Failed to initialize SwiftData container: " + openFailure.value))
      ensures backendType == CoreData && openFailure.Some? ==>
        r == Failure(ConfigurationError("Failed to load persistent store: " + openFailure.value))
      ensures r.Success? <==>
        backendType == Mock || (openFailure.None? && (backendType == CoreData || swiftDataAvailable))
      ensures r.Success? ==> BackendOf(r.value) == backendType
      ensures r.Success? && backendType != Mock ==> ConfigurationOf(r.value) == Some(configuration)
      ensures r.Success? && r.value.SwiftDataManager? ==> fresh(r.value.sd) && r.value.sd.Valid()
      ensures r.Success? && r.value.CoreDataManager? ==> fresh(r.value.cd) && r.value.cd.Valid()
      ensures r.Success? && r.value.MockManager? ==> fresh(r.value.mock) && r.value.mock.Valid()
    {
      match backendType
      case SwiftData =>
        if !swiftDataAvailable {
          return Failure(ConfigurationError("SwiftData is not available on this OS version"));
        }
        var made := SwiftDataStorage.OpenSwiftDataStorage(configuration, openFailure);
        r := if made.Success? then Success(SwiftDataManager(made.value)) else Failure(made.error);
      case CoreData =>
        var made := CoreDataStorage.OpenCoreDataStorage(configuration, openFailure);
        r := if made.Success? then Success(CoreDataManager(made.value)) else Failure(made.error);
      case Mock =>
        var mock := CreateMockStorageManager();
        r := Success(mock);
    }

    /** `resetCachedManager()`: both slots cleared, so no configuration hits. */
    method ResetCachedManager()
      modifies this`cachedManager, this`cachedConfiguration
      ensures cachedManager == None && cachedConfiguration == None && Valid()
      ensures forall configuration :: !CacheHit(configuration)
    {
      cachedManager := None;
      cachedConfiguration := None;
    }
  }
}
