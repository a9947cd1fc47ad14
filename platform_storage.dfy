/**
 * The storage adapter singleton: a module-level cell, filled at most once,
 * either by the asynchronous constructor (native or web class, by platform)
 * or, on the web only, by the synchronous accessor with an inline
 * localStorage adapter. On native, the synchronous accessor fails until the
 * asynchronous constructor has run.
 *
 * Every adapter reads and writes a key-to-string store (the device's
 * Preferences on native, localStorage on the web); `KeyValueStore` models
 * that store and the three adapter operations on it.
 */
module PlatformStorage {
  import opened Wrappers
  import opened PlatformDetect

  datatype StorageAdapter = NativeStorageAdapter | WebStorageAdapter | InlineLocalStorage

  datatype StorageError = StorageNotInitialized

  /** What `createPlatformStorage` returns, given the cell and the platform. */
  function CreateAccess(instance: Option<StorageAdapter>, p: Platform): (a: StorageAdapter)
    ensures instance.Some? ==> a == instance.value
    ensures instance.None? ==> (a == NativeStorageAdapter <==> p == Native)
    ensures instance.None? ==> a != InlineLocalStorage
  {
    if instance.Some? then instance.value
    else if p == Native then NativeStorageAdapter
    else WebStorageAdapter
  }

  /** What `getPlatformStorage` returns, given the cell and the platform. */
  function SyncAccess(instance: Option<StorageAdapter>, p: Platform): (r: Result<StorageAdapter, StorageError>)
    ensures instance.Some? ==> r == Ok(instance.value)
    ensures r.Err? <==> instance.None? && p == Native
    ensures instance.None? && p == Web ==> r == Ok(InlineLocalStorage)
  {
    if instance.Some? then Ok(instance.value)
    else if p == Native then Err(StorageNotInitialized)
    else Ok(InlineLocalStorage)
  }

  /** The module-level `_instance` cell of the storage adapter. */
  class StorageCell {
    var instance: Option<StorageAdapter>

    constructor ()
      ensures instance == None
    {
      instance := None;
    }

    /** `createPlatformStorage`. */
    method CreatePlatformStorage(detector: PlatformDetector, nativeProbe: bool) returns (a: StorageAdapter)
      modifies this, detector
      ensures a == CreateAccess(old(instance), old(detector.Resolve(nativeProbe)))
      ensures instance == Some(a)
      ensures old(instance).Some? ==> unchanged(detector)
      ensures old(instance).None? ==> detector.cached == Some(old(detector.Resolve(nativeProbe)))
    {
      if instance.Some? {
        return instance.value;
      }
      var native := detector.IsNative(nativeProbe);
      if native {
        instance := Some(NativeStorageAdapter);
      } else {
        instance := Some(WebStorageAdapter);
      }
      a := instance.value;
    }

    /** `getPlatformStorage`: the cached adapter, a fresh inline one on the web, or an error on native. */
    method GetPlatformStorage(detector: PlatformDetector, nativeProbe: bool) returns (r: Result<StorageAdapter, StorageError>)
      modifies this, detector
      ensures r == SyncAccess(old(instance), old(detector.Resolve(nativeProbe)))
      ensures instance == if r.Ok? then Some(r.value) else old(instance)
      ensures old(instance).Some? ==> unchanged(detector)
      ensures old(instance).None? ==> detector.cached == Some(old(detector.Resolve(nativeProbe)))
    {
      if instance.Some? {
        return Ok(instance.value);
      }
      var native := detector.IsNative(nativeProbe);
      if !native {
        instance := Some(InlineLocalStorage);
        return Ok(instance.value);
      }
      r := Err(StorageNotInitialized);
    }
  }

  /**
   * On the web, a synchronous access made before the asynchronous constructor
   * fixes the inline adapter for good: the constructor then returns it.
   */
  method WebAccessThenCreate(cell: StorageCell, detector: PlatformDetector, nativeProbe: bool)
    returns (first: Result<StorageAdapter, StorageError>, second: StorageAdapter)
    requires cell.instance == None && detector.Resolve(nativeProbe) == Web
    modifies cell, detector
    ensures first == Ok(InlineLocalStorage) && second == InlineLocalStorage
    ensures cell.instance == Some(InlineLocalStorage)
  {
    first := cell.GetPlatformStorage(detector, nativeProbe);
    second := cell.CreatePlatformStorage(detector, nativeProbe);
  }

  /** On native, synchronous access fails until the asynchronous constructor has run, then returns its adapter. */
  method NativeAccessBeforeAndAfterCreate(cell: StorageCell, detector: PlatformDetector, nativeProbe: bool)
    returns (before: Result<StorageAdapter, StorageError>, created: StorageAdapter, after: Result<StorageAdapter, StorageError>)
    requires cell.instance == None && detector.Resolve(nativeProbe) == Native
    modifies cell, detector
    ensures before == Err(StorageNotInitialized)
    ensures created == NativeStorageAdapter && after == Ok(NativeStorageAdapter)
  {
    before := cell.GetPlatformStorage(detector, nativeProbe);
    created := cell.CreatePlatformStorage(detector, nativeProbe);
    after := cell.GetPlatformStorage(detector, nativeProbe);
  }

  /** The key-to-string store behind an adapter, with the adapter's three operations. */
  class KeyValueStore {
    var entries: map<string, string>

    constructor ()
      ensures entries == map[]
    {
      entries := map[];
    }

    method GetItem(key: string) returns (v: Option<string>)
      ensures v.Some? <==> key in entries
      ensures v.Some? ==> v.value == entries[key]
    {
      v := if key in entries then Some(entries[key]) else None;
    }

    method SetItem(key: string, value: string)
      modifies this
      ensures entries == old(entries)[key := value]
    {
      entries := entries[key := value];
    }

    method RemoveItem(key: string)
      modifies this
      ensures entries == old(entries) - {key}
    {
      entries := entries - {key};
    }
  }

  /** Reading a key after writing it yields the written value; other keys are untouched. */
  method SetThenGet(store: KeyValueStore, key: string, value: string) returns (v: Option<string>)
    modifies store
    ensures v == Some(value)
    ensures store.entries == old(store.entries)[key := value]
  {
    store.SetItem(key, value);
    v := store.GetItem(key);
  }

  /** Reading a key after removing it yields null. */
  method RemoveThenGet(store: KeyValueStore, key: string) returns (v: Option<string>)
    modifies store
    ensures v == None
    ensures store.entries == old(store.entries) - {key}
  {
    store.RemoveItem(key);
    v := store.GetItem(key);
  }
}
