/**
 * The persistence bridge between typed stores and the key-to-string storage
 * adapter. On the web the stores use JSON over localStorage; on native they
 * use a lazy storage that degrades to "nothing stored" and to no-op writes
 * while the native adapter has not been created. Serialization is a pair of
 * functions supplied by the caller; a parse failure is NOT caught here and
 * rejects the read.
 */
module StorageBridge {
  import opened Wrappers
  import opened PlatformDetect
  import opened PlatformStorage

  datatype PersistStorage = JsonLocalStorage | LazyNativeStorage

  datatype BridgeError = ParseFailure

  /** `parse` undoes `serialize`. */
  ghost predicate Inverse<S(!new)>(serialize: S -> string, parse: string -> Option<S>) {
    forall v :: parse(serialize(v)) == Some(v)
  }

  /** The value a read resolves or rejects with, given the stored string. */
  function Decode<S>(stored: Option<string>, parse: string -> Option<S>): (r: Result<Option<S>, BridgeError>)
    ensures stored.None? ==> r == Ok(None)
    ensures stored.Some? && parse(stored.value).Some? ==> r == Ok(parse(stored.value))
    ensures stored.Some? && parse(stored.value).None? ==> r == Err(ParseFailure)
  {
    match stored
    case None => Ok(None)
    case Some(str) =>
      match parse(str)
      case Some(v) => Ok(Some(v))
      case None => Err(ParseFailure)
  }

  /** With inverse codecs, decoding what was encoded gives the value back. */
  lemma DecodeEncoded<S(!new)>(v: S, serialize: S -> string, parse: string -> Option<S>)
    requires Inverse(serialize, parse)
    ensures Decode(Some(serialize(v)), parse) == Ok(Some(v))
  {
    assert parse(serialize(v)) == Some(v);
  }

  /** What `getPlatformStorage` would return now. */
  function SyncOutcome(cell: StorageCell, detector: PlatformDetector, nativeProbe: bool): Result<StorageAdapter, StorageError>
    reads cell, detector
  {
    SyncAccess(cell.instance, detector.Resolve(nativeProbe))
  }

  /**
   * The state `getPlatformStorage` leaves behind: the adapter it handed out is
   * cached, and a second call would hand out the same one or fail again.
   */
  ghost predicate AccessSettled(cell: StorageCell, detector: PlatformDetector, nativeProbe: bool,
                                before: Result<StorageAdapter, StorageError>)
    reads cell, detector
  {
    && (before.Ok? ==> cell.instance == Some(before.value))
    && SyncOutcome(cell, detector, nativeProbe) == before
  }

  /** `createZustandStorage`: the lazy native storage on native, JSON over localStorage otherwise. */
  method CreateZustandStorage(detector: PlatformDetector, nativeProbe: bool) returns (k: PersistStorage)
    modifies detector
    ensures k == LazyNativeStorage <==> old(detector.Resolve(nativeProbe)) == Native
    ensures detector.cached == Some(old(detector.Resolve(nativeProbe)))
  {
    var native := detector.IsNative(nativeProbe);
    if !native {
      return JsonLocalStorage;
    }
    return LazyNativeStorage;
  }

  /**
   * The lazy storage's `getItem`. `store` is the key-to-string store behind
   * whichever adapter `getPlatformStorage` hands out.
   */
  method LazyGetItem<S>(cell: StorageCell, detector: PlatformDetector, nativeProbe: bool,
                        store: KeyValueStore, name: string, parse: string -> Option<S>)
    returns (r: Result<Option<S>, BridgeError>)
    modifies cell, detector
    ensures old(SyncOutcome(cell, detector, nativeProbe)).Err? ==> r == Ok(None)
    ensures old(SyncOutcome(cell, detector, nativeProbe)).Ok? ==>
      r == Decode(if name in store.entries then Some(store.entries[name]) else None, parse)
    ensures AccessSettled(cell, detector, nativeProbe, old(SyncOutcome(cell, detector, nativeProbe)))
  {
    var adapter := cell.GetPlatformStorage(detector, nativeProbe);
    if adapter.Err? {
      return Ok(None);
    }
    var str := store.GetItem(name);
    if str.None? {
      return Ok(None);
    }
    var parsed := parse(str.value);
    if parsed.None? {
      return Err(ParseFailure);
    }
    r := Ok(parsed);
  }

  /** The lazy storage's `setItem`: writes the serialized value, or nothing before the adapter exists. */
  method LazySetItem<S>(cell: StorageCell, detector: PlatformDetector, nativeProbe: bool,
                        store: KeyValueStore, name: string, value: S, serialize: S -> string)
    modifies cell, detector, store
    ensures old(SyncOutcome(cell, detector, nativeProbe)).Ok? ==>
      store.entries == old(store.entries)[name := serialize(value)]
    ensures old(SyncOutcome(cell, detector, nativeProbe)).Err? ==>
      store.entries == old(store.entries)
    ensures AccessSettled(cell, detector, nativeProbe, old(SyncOutcome(cell, detector, nativeProbe)))
  {
    var adapter := cell.GetPlatformStorage(detector, nativeProbe);
    if adapter.Err? {
      return;
    }
    store.SetItem(name, serialize(value));
  }

  /** The lazy storage's `removeItem`: deletes the entry, or nothing before the adapter exists. */
  method LazyRemoveItem(cell: StorageCell, detector: PlatformDetector, nativeProbe: bool,
                        store: KeyValueStore, name: string)
    modifies cell, detector, store
    ensures old(SyncOutcome(cell, detector, nativeProbe)).Ok? ==>
      store.entries == old(store.entries) - {name}
    ensures old(SyncOutcome(cell, detector, nativeProbe)).Err? ==>
      store.entries == old(store.entries)
    ensures AccessSettled(cell, detector, nativeProbe, old(SyncOutcome(cell, detector, nativeProbe)))
  {
    var adapter := cell.GetPlatformStorage(detector, nativeProbe);
    if adapter.Err? {
      return;
    }
    store.RemoveItem(name);
  }

  /**
   * Round trip: once an adapter is available, reading a name back after writing a
   * value under it yields that value; before, the write is dropped and the read is null.
   */
  method SetThenGetItem<S(!new)>(cell: StorageCell, detector: PlatformDetector, nativeProbe: bool,
                                 store: KeyValueStore, name: string, value: S,
                                 serialize: S -> string, parse: string -> Option<S>)
    returns (r: Result<Option<S>, BridgeError>)
    requires Inverse(serialize, parse)
    modifies cell, detector, store
    ensures old(SyncOutcome(cell, detector, nativeProbe)).Ok? ==> r == Ok(Some(value))
    ensures old(SyncOutcome(cell, detector, nativeProbe)).Err? ==>
      r == Ok(None) && store.entries == old(store.entries)
  {
    LazySetItem(cell, detector, nativeProbe, store, name, value, serialize);
    r := LazyGetItem(cell, detector, nativeProbe, store, name, parse);
    DecodeEncoded(value, serialize, parse);
  }

  /** Reading a name back after removing it yields null. */
  method RemoveThenGetItem<S>(cell: StorageCell, detector: PlatformDetector, nativeProbe: bool,
                              store: KeyValueStore, name: string, parse: string -> Option<S>)
    returns (r: Result<Option<S>, BridgeError>)
    modifies cell, detector, store
    ensures r == Ok(None)
  {
    LazyRemoveItem(cell, detector, nativeProbe, store, name);
    r := LazyGetItem(cell, detector, nativeProbe, store, name, parse);
  }
}
