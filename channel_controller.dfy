/**
 * The channel request handlers: two guards on a new channel, null results as 404, every
 * thrown service error as a 500 with its message.
 */
module ChannelController {
  import opened Wrappers
  import opened Models
  import opened Js
  import opened Http
  import opened Database
  import opened ChannelCache
  import ChannelService

  const NameAndStatusRequired := "Name and status are required"
  /** The message as the source spells it, with two spaces. */
  const InvalidStatus := "Invalid  status value"
  const ChannelNotFound := "Channel not found"
  const ChannelDeleted := "Channel deleted successfully"

  /** `['active', 'passive'].includes(status)`: strict equality, so only these two strings. */
  predicate KnownStatus(status: Value)
  {
    status == Str("active") || status == Str("passive")
  }

  /** The message of the first guard of `createChannel` that fails. */
  function CreateGuard(name: Value, status: Value): (r: Option<string>)
    ensures r == Some(NameAndStatusRequired) <==> !Truthy(name) || !Truthy(status)
    ensures r == Some(InvalidStatus) <==> Truthy(name) && Truthy(status) && !KnownStatus(status)
    ensures r.None? <==> Truthy(name) && KnownStatus(status)
  {
    if !Truthy(name) || !Truthy(status) then Some(NameAndStatusRequired)
    else if !KnownStatus(status) then Some(InvalidStatus)
    else None
  }

  /** The status check tells upper and lower case apart. */
  lemma StatusIsCaseSensitive()
    ensures CreateGuard(Str("tv"), Str("Active")) == Some(InvalidStatus)
    ensures CreateGuard(Str("tv"), Str("active")).None?
  {
  }

  /** `createChannel`: the guards, then 201 with the saved channel or 500 with the error's message. */
  function CreateReply(name: Value, status: Value, created: Result<Channel, Error>): (r: Response<Channel>)
    ensures CreateGuard(name, status).Some? ==> r == WithMessage(400, CreateGuard(name, status).value)
    ensures CreateGuard(name, status).None? && created.Ok? ==> r == Response(201, Json(created.value))
    ensures CreateGuard(name, status).None? && created.Err? ==> r == WithMessage(500, created.error.message)
  {
    if CreateGuard(name, status).Some? then WithMessage(400, CreateGuard(name, status).value)
    else match created
      case Ok(c) => Response(201, Json(c))
      case Err(e) => WithMessage(500, e.message)
  }

  /**
   * Runs `createChannel` against the store and the cache (`data` is the body as the ORM
   * casts it). A refused request changes neither; a 201 means the channel was added and
   * the cache emptied.
   */
  method HandleCreate(db: ChannelCollection, cache: Cache, name: Value, status: Value, data: ChannelData,
                      newId: Id, failure: Option<Error>)
    returns (r: Response<Channel>)
    requires db.Fresh(newId)
    modifies db, cache
    ensures CreateGuard(name, status).Some? ==>
      r == WithMessage(400, CreateGuard(name, status).value)
      && db.docs == old(db.docs) && cache.promise == old(cache.promise)
    ensures r.status == 201 <==> CreateGuard(name, status).None? && failure.None?
    ensures r.status == 201 ==>
      db.docs == old(db.docs) + [Channel(newId, data.name, data.status)] && cache.promise == None
      && r.body == Json(Channel(newId, data.name, data.status))
    ensures r.status == 500 ==> db.docs == old(db.docs) && cache.promise == old(cache.promise)
  {
    if CreateGuard(name, status).Some? {
      return WithMessage(400, CreateGuard(name, status).value);
    }
    var created := ChannelService.CreateChannel(db, cache, data, newId, failure);
    r := CreateReply(name, status, created);
  }

  /** `getAllChannels`: 200 with the list, or 500. */
  function ListReply(result: Result<seq<Channel>, Error>): (r: Response<seq<Channel>>)
    ensures result.Ok? ==> r == Response(200, Json(result.value))
    ensures result.Err? ==> r == WithMessage(500, result.error.message)
  {
    match result
    case Ok(cs) => Response(200, Json(cs))
    case Err(e) => WithMessage(500, e.message)
  }

  /** `getChannelById` and `updateChannel`: 200 with the document, 404 for null, 500 for a thrown error. */
  function DocumentReply(result: Result<Option<Channel>, Error>): (r: Response<Channel>)
    ensures result == Ok(None) <==> r == WithMessage(404, ChannelNotFound)
    ensures result.Ok? && result.value.Some? <==> r.status == 200
    ensures r.status == 200 ==> r.body == Json(result.value.value)
    ensures result.Err? ==> r == WithMessage(500, result.error.message)
  {
    match result
    case Err(e) => WithMessage(500, e.message)
    case Ok(None) => WithMessage(404, ChannelNotFound)
    case Ok(Some(c)) => Response(200, Json(c))
  }

  /** `deleteChannel`: 200 'Channel deleted successfully', 404 for null, 500 for a thrown error. */
  function DeleteReply(result: Result<Option<Channel>, Error>): (r: Response<Channel>)
    ensures result == Ok(None) <==> r == WithMessage(404, ChannelNotFound)
    ensures result.Ok? && result.value.Some? <==> r == WithMessage(200, ChannelDeleted)
    ensures result.Err? ==> r == WithMessage(500, result.error.message)
  {
    match result
    case Err(e) => WithMessage(500, e.message)
    case Ok(None) => WithMessage(404, ChannelNotFound)
    case Ok(Some(_)) => WithMessage(200, ChannelDeleted)
  }

  /** Deleting an unknown id is a 404, and the cache is still emptied. */
  method HandleDeleteUnknown(db: ChannelCollection, cache: Cache, id: Id) returns (r: Response<Channel>)
    requires db.Fresh(id)
    modifies db, cache
    ensures r == WithMessage(404, ChannelNotFound)
    ensures db.docs == old(db.docs) && cache.promise == None
  {
    var deleted := ChannelService.DeleteChannel(db, cache, id, None);
    r := DeleteReply(deleted);
  }
}
