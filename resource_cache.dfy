/**
 * The local store that keeps byte payloads fetched from remote data providers
 * (org.javamoney.moneta.internal.loader.ResourceCache), as the contract of its
 * interface describes it: a map from resource id to bytes.
 */
module Loader {
  import opened Wrappers

  type Bytes = seq<bv8>

  /** The exceptions the cache operations throw. */
  datatype CacheError =
    | IoError                           // IOException from the backing store
    | NoSuchResource(resourceId: string) // IllegalArgumentException from read

  class ResourceCache {
    /** The resources registered so far, by id. */
    var entries: map<string, Bytes>

    /** A cache over whatever the backing store already holds. */
    constructor (stored: map<string, Bytes>)
      ensures entries == stored
    {
      entries := stored;
    }

    /** A resource is registered under `resourceId`. Never fails, never changes the store. */
    predicate IsCached(resourceId: string)
      reads this
    {
      resourceId in entries
    }

    /**
     * Registers `data` under `resourceId`, replacing any earlier payload.
     * `storeWritable` stands for whether the backing store accepts the write;
     * when it does not, the write fails and nothing is registered.
     */
    method Write(resourceId: string, data: Bytes, storeWritable: bool) returns (r: Outcome<CacheError>)
      modifies this
      ensures storeWritable ==> r == Pass && entries == old(entries)[resourceId := data]
      ensures !storeWritable ==> r == Fail(IoError) && entries == old(entries)
      ensures r.Pass? ==> IsCached(resourceId)
    {
      if !storeWritable {
        return Fail(IoError);
      }
      entries := entries[resourceId := data];
      return Pass;
    }

    /** Returns the payload registered under `resourceId`, failing when there is none. */
    method Read(resourceId: string) returns (r: Result<Bytes, CacheError>)
      ensures r.Success? <==> IsCached(resourceId)
      ensures r.Success? ==> r.value == entries[resourceId]
      ensures r.Failure? ==> r.error == NoSuchResource(resourceId)
    {
      if resourceId !in entries {
        return Failure(NoSuchResource(resourceId));
      }
      return Success(entries[resourceId]);
    }

    /** Removes the entry for `resourceId`; an absent id is left alone. */
    method Clear(resourceId: string)
      modifies this
      ensures entries == old(entries) - {resourceId}
      ensures !IsCached(resourceId)
    {
      entries := entries - {resourceId};
    }
  }

  /**
   * Read-your-own-write: a payload written under one id reads back byte for
   * byte, and a later write under a different id does not disturb it.
   */
  method WriteThenRead(stored: map<string, Bytes>, id: string, data: Bytes, otherId: string, otherData: Bytes)
    returns (written: Outcome<CacheError>, cached: bool, got: Result<Bytes, CacheError>)
    requires otherId != id
    ensures written == Pass && cached && got == Success(data)
  {
    var cache := new ResourceCache(stored);
    written := cache.Write(id, data, true);
    var _ := cache.Write(otherId, otherData, true);
    cached := cache.IsCached(id);
    got := cache.Read(id);
  }

  /** After a clear, the id is no longer cached and reading it fails as a miss. */
  method ClearThenRead(stored: map<string, Bytes>, id: string)
    returns (cached: bool, got: Result<Bytes, CacheError>)
    ensures !cached && got == Failure(NoSuchResource(id))
  {
    var cache := new ResourceCache(stored);
    cache.Clear(id);
    cached := cache.IsCached(id);
    got := cache.Read(id);
  }

  /** A write the backing store refuses fails with an I/O error and leaves the store as it was. */
  method FailedWriteKeepsStore(stored: map<string, Bytes>, id: string, data: Bytes)
    returns (written: Outcome<CacheError>, cached: bool)
    ensures written == Fail(IoError) && (cached <==> id in stored)
  {
    var cache := new ResourceCache(stored);
    written := cache.Write(id, data, false);
    cached := cache.IsCached(id);
  }
}
