/**
 * The channel service: store operations on the channel collection, each mutation
 * followed by a cache invalidation once the store call has returned, reads leaving
 * the cache alone. Errors are rethrown unchanged.
 */
module ChannelService {
  import opened Wrappers
  import opened Models
  import opened Database
  import opened ChannelCache
  import Js

  /** `createChannel(data)`: save, then invalidate; a failed save leaves the cache as it was. */
  method CreateChannel(db: ChannelCollection, cache: Cache, data: ChannelData, newId: Id, failure: Option<Js.Error>)
    returns (r: Result<Channel, Js.Error>)
    requires db.Fresh(newId)
    modifies db, cache
    ensures cache.fetches == old(cache.fetches)
    ensures failure.Some? ==>
      r == Err(failure.value) && db.docs == old(db.docs) && cache.promise == old(cache.promise)
    ensures failure.None? ==>
      r == Ok(Channel(newId, data.name, data.status)) && db.docs == old(db.docs) + [r.value] && cache.promise == None
  {
    r := db.Save(data, newId, failure);
    if r.Ok? {
      cache.Invalidate();
    }
  }

  /** `getAllChannels()`: the whole collection from the store, never from the cache. */
  method GetAllChannels(db: ChannelCollection, failure: Option<Js.Error>) returns (r: Result<seq<Channel>, Js.Error>)
    ensures failure.Some? ==> r == Err(failure.value)
    ensures failure.None? ==> r == Ok(db.docs)
  {
    if failure.Some? {
      return Err(failure.value);
    }
    r := Ok(db.docs);
  }

  /** `getChannelById(id)`: the document with that id, or null. */
  method GetChannelById(db: ChannelCollection, id: Id, failure: Option<Js.Error>) returns (r: Result<Option<Channel>, Js.Error>)
    ensures failure.Some? ==> r == Err(failure.value)
    ensures failure.None? ==> r.Ok?
    ensures r.Ok? && r.value.Some? ==> r.value.value in db.docs && r.value.value.id == id
    ensures r.Ok? && r.value.None? ==> forall c :: c in db.docs ==> c.id != id
  {
    if failure.Some? {
      return Err(failure.value);
    }
    r := Ok(db.FindById(id));
  }

  /**
   * `updateChannel(id, patch)`: the document after the update, or null when no channel
   * has that id; the cache is invalidated in both cases, and not when the store call throws.
   */
  method UpdateChannel(db: ChannelCollection, cache: Cache, id: Id, patch: ChannelPatch, failure: Option<Js.Error>)
    returns (r: Result<Option<Channel>, Js.Error>)
    modifies db, cache
    ensures cache.fetches == old(cache.fetches)
    ensures failure.Some? ==>
      r == Err(failure.value) && db.docs == old(db.docs) && cache.promise == old(cache.promise)
    ensures failure.None? ==> cache.promise == None && r.Ok?
    ensures failure.None? && ChannelIndex(old(db.docs), id).None? ==> r == Ok(None) && db.docs == old(db.docs)
    ensures failure.None? && ChannelIndex(old(db.docs), id).Some? ==>
      var i := ChannelIndex(old(db.docs), id).value;
      r == Ok(Some(PatchChannel(old(db.docs)[i], patch))) && db.docs == old(db.docs)[i := r.value.value]
  {
    r := db.FindByIdAndUpdate(id, patch, failure);
    if r.Ok? {
      cache.Invalidate();
    }
  }

  /** `deleteChannel(id)`: the removed document, or null; invalidates unless the store call throws. */
  method DeleteChannel(db: ChannelCollection, cache: Cache, id: Id, failure: Option<Js.Error>)
    returns (r: Result<Option<Channel>, Js.Error>)
    modifies db, cache
    ensures cache.fetches == old(cache.fetches)
    ensures failure.Some? ==>
      r == Err(failure.value) && db.docs == old(db.docs) && cache.promise == old(cache.promise)
    ensures failure.None? ==> cache.promise == None && r.Ok?
    ensures failure.None? && ChannelIndex(old(db.docs), id).None? ==> r == Ok(None) && db.docs == old(db.docs)
    ensures failure.None? && ChannelIndex(old(db.docs), id).Some? ==>
      var i := ChannelIndex(old(db.docs), id).value;
      r == Ok(Some(old(db.docs)[i])) && db.docs == old(db.docs)[..i] + old(db.docs)[i + 1..]
  {
    r := db.FindByIdAndDelete(id, failure);
    if r.Ok? {
      cache.Invalidate();
    }
  }

  /** One channel mutation, as a request would cause it. */
  datatype Mutation =
    | Create(data: ChannelData, newId: Id)
    | Update(id: Id, patch: ChannelPatch)
    | Delete(id: Id)

  /**
   * After a create, update or delete that did not throw, the next `getChannels()` issues
   * a fresh query and returns the collection as it is now.
   */
  method MutateThenRead(db: ChannelCollection, cache: Cache, m: Mutation, failure: Option<Js.Error>, readFailure: Option<Js.Error>)
    returns (changed: bool, listed: Result<seq<Channel>, Js.Error>)
    requires m.Create? ==> db.Fresh(m.newId)
    modifies db, cache
    ensures changed <==> failure.None?
    ensures changed && readFailure.None? ==> listed == Ok(db.docs)
    ensures changed ==> cache.fetches == old(cache.fetches) + 1
  {
    match m {
      case Create(data, newId) =>
        var r := CreateChannel(db, cache, data, newId, failure);
        changed := r.Ok?;
      case Update(id, patch) =>
        var r := UpdateChannel(db, cache, id, patch, failure);
        changed := r.Ok?;
      case Delete(id) =>
        var r := DeleteChannel(db, cache, id, failure);
        changed := r.Ok?;
    }
    listed := cache.GetChannels(db, readFailure);
  }
}
