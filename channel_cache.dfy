/**
 * The in-memory channel list cache. The source keeps one module-level promise: null
 * (empty) or the promise of one `Channel.find()` query. The model keeps what that
 * promise settles to, so a failed fetch stays cached as a failure until the next
 * `invalidate()`, exactly as a rejected promise does.
 */
module ChannelCache {
  import opened Wrappers
  import opened Models
  import opened Database
  import Js

  /** What the cached promise settles to. */
  datatype Fetched = Loaded(channels: seq<Channel>) | Failed(error: Js.Error)

  /** Awaiting the cached promise: the channel list, or the error it was rejected with. */
  function Settle(f: Fetched): (r: Result<seq<Channel>, Js.Error>)
    ensures r.Ok? <==> f.Loaded?
    ensures f.Loaded? ==> r.value == f.channels
    ensures f.Failed? ==> r.error == f.error
  {
    match f
    case Loaded(cs) => Ok(cs)
    case Failed(e) => Err(e)
  }

  class Cache {
    /** `channelsPromise`: None is null. */
    var promise: Option<Fetched>
    /** How many `Channel.find()` queries this cache has issued. */
    ghost var fetches: nat

    constructor ()
      ensures promise == None && fetches == 0
    {
      promise := None;
      fetches := 0;
    }

    /** `invalidate()`: drop the cached value; the next read fetches again. */
    method Invalidate()
      modifies this`promise
      ensures promise == None
    {
      promise := None;
    }

    /**
     * `getChannels()`: on an empty cache, issue one query (which either returns the
     * collection as it is now or throws `failure`) and cache its outcome; on a populated
     * cache, return the cached outcome without querying, however the store has changed.
     */
    method GetChannels(db: ChannelCollection, failure: Option<Js.Error>) returns (r: Result<seq<Channel>, Js.Error>)
      modifies this
      ensures old(promise).None? ==>
        promise == Some(if failure.Some? then Failed(failure.value) else Loaded(db.docs))
        && fetches == old(fetches) + 1
      ensures old(promise).Some? ==> promise == old(promise) && fetches == old(fetches)
      ensures promise.Some? && r == Settle(promise.value)
    {
      if promise.None? {
        promise := Some(if failure.Some? then Failed(failure.value) else Loaded(db.docs));
        fetches := fetches + 1;
      }
      r := Settle(promise.value);
    }

    /** `warm()`: the same call as `getChannels()`. */
    method Warm(db: ChannelCollection, failure: Option<Js.Error>) returns (r: Result<seq<Channel>, Js.Error>)
      modifies this
      ensures old(promise).None? ==>
        promise == Some(if failure.Some? then Failed(failure.value) else Loaded(db.docs))
        && fetches == old(fetches) + 1
      ensures old(promise).Some? ==> promise == old(promise) && fetches == old(fetches)
      ensures promise.Some? && r == Settle(promise.value)
    {
      r := GetChannels(db, failure);
    }
  }

  /**
   * Two reads with no `invalidate()` between them see the same value and cost at most
   * one query, even when a channel is saved to the store in between.
   */
  method ReadSaveRead(cache: Cache, db: ChannelCollection, data: ChannelData, newId: Id,
                      f1: Option<Js.Error>, f2: Option<Js.Error>, f3: Option<Js.Error>)
    returns (first: Result<seq<Channel>, Js.Error>, second: Result<seq<Channel>, Js.Error>)
    requires db.Fresh(newId)
    modifies cache, db
    ensures first == second
    ensures cache.fetches <= old(cache.fetches) + 1
    ensures old(cache.promise).Some? ==> cache.fetches == old(cache.fetches)
  {
    first := cache.GetChannels(db, f1);
    var _ := db.Save(data, newId, f2);
    second := cache.GetChannels(db, f3);
  }

  /** Invalidating twice leaves the cache as invalidating once does. */
  method InvalidateTwice(cache: Cache)
    modifies cache
    ensures cache.promise == None && cache.fetches == old(cache.fetches)
  {
    cache.Invalidate();
    cache.Invalidate();
  }
}
