/**
 * `Persistence.PersistCache`: an identity cache of persisted records keyed by remote-ID
 * string. It is a reference type, so every reconcile call handed the same cache sees the
 * entries the others put into it.
 */
module Persistence {
  import opened Wrappers

  class PersistCache<T> {
    var dictionary: map<string, T>

    /** A cache holding exactly the entries of `dictionary` (none by default). */
    constructor (dictionary: map<string, T> := map[])
      ensures this.dictionary == dictionary
    {
      this.dictionary := dictionary;
    }

    /** The entry stored under `key`, if any. */
    function Get(key: string): (r: Option<T>)
      reads this
      ensures r.Some? <==> key in dictionary
      ensures r.Some? ==> dictionary[key] == r.value
    {
      if key in dictionary then Some(dictionary[key]) else None
    }

    /** `dictionary[key] = value`. */
    method Put(key: string, value: T)
      modifies this
      ensures dictionary == old(dictionary)[key := value]
      ensures Get(key) == Some(value)
      ensures forall k :: k != key ==> Get(k) == old(Get(k))
    {
      dictionary := dictionary[key := value];
    }
  }
}
