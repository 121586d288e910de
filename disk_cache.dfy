/**
  The key-value disk cache the countdown persists its start time in
  (`PINCache.shared.diskCache`).  Writes and removals take effect at once;
  the source issues them asynchronously.
 */
module DiskStore {

  class DiskCache {
    /** The stored timestamps, by key. */
    var entries: map<string, int>

    constructor (entries: map<string, int>)
      ensures this.entries == entries
    {
      this.entries := entries;
    }

    /** `containsObject(forKey:)`. */
    predicate ContainsObject(key: string)
      reads this
    {
      key in entries
    }

    /** `object(forKey:)`, read as a whole number of seconds. */
    function Object(key: string): (v: int)
      reads this
      requires ContainsObject(key)
      ensures key in entries && entries[key] == v
    {
      entries[key]
    }

    /** `setObjectAsync(_:forKey:completion:)`. */
    method SetObject(value: int, key: string)
      modifies this
      ensures entries == old(entries)[key := value]
    {
      entries := entries[key := value];
    }

    /** `removeObject(forKeyAsync:completion:)`. */
    method RemoveObject(key: string)
      modifies this
      ensures entries == old(entries) - {key}
    {
      entries := entries - {key};
    }
  }
}
