/**
 * The campaign service: the campaign list (filter, sort, page, count, spent) and the
 * single-campaign operations with their error mapping. Store failures come in as
 * `failure` parameters; the list reads the channel names through the channel cache.
 */
module CampaignService {
  import opened Wrappers
  import opened Models
  import opened Database
  import opened ChannelCache
  import opened CampaignQuery
  import opened Text
  import Js

  const FetchErrorPrefix := "Error fetching campaigns: "

  /** `new Error(`Error fetching campaigns: ${error.message}`)`: a plain error without a status. */
  function FetchError(e: Js.Error): (r: Js.Error)
    ensures r.name == "Error" && r.status == None
    ensures r.message == FetchErrorPrefix + e.message
    ensures StartsWith(r.message, FetchErrorPrefix)
  {
    Js.Error("Error", None, FetchErrorPrefix + e.message)
  }

  /** A list request once the query is known: the store's answer, every failure rethrown as a FetchError. */
  function Listed(docs: seq<Campaign>, q: Query, page: int, limit: int, sortField: string, sortOrder: string,
                  now: int, failure: Option<Js.Error>): (r: Result<Listing, Js.Error>)
    ensures r.Err? ==> r.error.status == None && StartsWith(r.error.message, FetchErrorPrefix)
    ensures failure.Some? ==> r == Err(FetchError(failure.value))
    ensures failure.None? && page >= 1 && limit >= 1 ==> r == ListFromStore(docs, q, page, limit, sortField, sortOrder, now)
    ensures failure.None? && Skip(page, limit) < 0 ==> r == Err(FetchError(NegativeSkipError))
  {
    if failure.Some? then Err(FetchError(failure.value))
    else
      match ListFromStore(docs, q, page, limit, sortField, sortOrder, now)
      case Ok(l) => Ok(l)
      case Err(e) => Err(FetchError(e))
  }

  /**
   * `getAllCampaigns(page, limit, filter, sortField, sortOrder)`. A blank filter queries every
   * campaign and leaves the cache alone. Any other filter reads the channel list through the
   * cache (`cacheFailure` is what a fetch would throw) and ORs a name match with a match on the
   * ids of the channels whose names match. The channels are not queried when the cache
   * holds a failure; that failure is rethrown as a FetchError, like every store failure.
   */
  method GetAllCampaigns(db: CampaignCollection, channels: ChannelCollection, cache: Cache,
                         page: int, limit: int, filter: string, sortField: string, sortOrder: string, now: int,
                         cacheFailure: Option<Js.Error>, failure: Option<Js.Error>)
    returns (r: Result<Listing, Js.Error>)
    modifies cache
    ensures Trim(filter) == "" ==>
      cache.promise == old(cache.promise) && cache.fetches == old(cache.fetches)
      && r == Listed(db.docs, Everything, page, limit, sortField, sortOrder, now, failure)
    ensures Trim(filter) != "" && old(cache.promise).None? ==>
      cache.promise == Some(if cacheFailure.Some? then Failed(cacheFailure.value) else Loaded(channels.docs))
      && cache.fetches == old(cache.fetches) + 1
    ensures Trim(filter) != "" && old(cache.promise).Some? ==>
      cache.promise == old(cache.promise) && cache.fetches == old(cache.fetches)
    ensures Trim(filter) != "" ==> cache.promise.Some?
    ensures Trim(filter) != "" && cache.promise.Some? && cache.promise.value.Failed? ==>
      r == Err(FetchError(cache.promise.value.error))
    ensures Trim(filter) != "" && cache.promise.Some? && cache.promise.value.Loaded? ==>
      r == Listed(db.docs, QueryFor(filter, cache.promise.value.channels), page, limit, sortField, sortOrder, now, failure)
  {
    var query := Everything;
    var trimmed := Trim(filter);
    if trimmed != "" {
      var escaped := Escape(trimmed);
      FilterRegex(filter);
      var regex := RegExpI(escaped).value;
      var allChannels := cache.GetChannels(channels, cacheFailure);
      if allChannels.Err? {
        return Err(FetchError(allChannels.error));
      }
      var channelIds := MatchingChannelIds(allChannels.value, regex);
      query := NameOrChannel(regex, channelIds);
    }
    var skip := Skip(page, limit);
    var sort: map<string, int> := map[];
    sort := sort[sortField := if sortOrder == "desc" then -1 else 1];
    assert sort[sortField] == SortDirection(sortOrder);
    if failure.Some? {
      return Err(FetchError(failure.value));
    }
    if skip < 0 {
      return Err(FetchError(NegativeSkipError));
    }
    var matching := Select(db.docs, query);
    var campaigns := Window(Sort(matching, sortField, sort[sortField]), skip, limit);
    var total := |matching|;
    var campaignsWithSpent := WithSpent(campaigns, now);
    r := Ok(Listing(campaignsWithSpent, page, limit, total));
    assert ListFromStore(db.docs, query, page, limit, sortField, sortOrder, now) == r;
  }

  /** `createCampaign(data)`: save the document; a failure is rethrown as it is. */
  method CreateCampaign(db: CampaignCollection, data: CampaignData, newId: Id, failure: Option<Js.Error>)
    returns (r: Result<Campaign, Js.Error>)
    requires db.Fresh(newId)
    modifies db
    ensures failure.Some? ==> r == Err(failure.value) && db.docs == old(db.docs)
    ensures failure.None? ==>
      r == Ok(Campaign(newId, data.name, data.channel, data.startDate, data.endDate, data.budget))
      && db.docs == old(db.docs) + [r.value]
  {
    r := db.Save(data, newId, failure);
  }

  const NotFound: Js.Error := Js.StatusError(404, "Campaign not found")
  const InvalidIdFormat: Js.Error := Js.StatusError(400, "Invalid campaign ID format")
  const InvalidUpdateData: Js.Error := Js.StatusError(400, "Invalid update data")

  /** The `catch` of get and delete: a CastError (an id that is no ObjectId) becomes a 400. */
  function MapCastError(e: Js.Error): (r: Js.Error)
    ensures e.name == "CastError" ==> r == InvalidIdFormat
    ensures e.name != "CastError" ==> r == e
  {
    if e.name == "CastError" then InvalidIdFormat else e
  }

  /** The `catch` of update: a ValidationError becomes a 400; a CastError is rethrown unchanged. */
  function MapValidationError(e: Js.Error): (r: Js.Error)
    ensures e.name == "ValidationError" ==> r == InvalidUpdateData
    ensures e.name != "ValidationError" ==> r == e
  {
    if e.name == "ValidationError" then InvalidUpdateData else e
  }

  /** `getCampaignById(id)`: the campaign, a 404 when there is none, a 400 for a CastError. */
  method GetCampaignById(db: CampaignCollection, id: Id, failure: Option<Js.Error>) returns (r: Result<Campaign, Js.Error>)
    ensures failure.Some? ==> r == Err(MapCastError(failure.value))
    ensures failure.None? && db.FindById(id).None? ==> r == Err(NotFound)
    ensures failure.None? && db.FindById(id).Some? ==> r == Ok(db.FindById(id).value)
    ensures r.Ok? ==> r.value in db.docs && r.value.id == id
  {
    var outcome: Result<Campaign, Js.Error>;
    if failure.Some? {
      outcome := Err(failure.value);
    } else {
      var campaign := db.FindById(id);
      if campaign.None? {
        outcome := Err(NotFound);
      } else {
        outcome := Ok(campaign.value);
      }
    }
    r := if outcome.Err? then Err(MapCastError(outcome.error)) else outcome;
  }

  /** `updateCampaign(id, patch)`: the updated campaign, a 404 when there is none, a 400 for a ValidationError. */
  method UpdateCampaign(db: CampaignCollection, id: Id, patch: CampaignPatch, failure: Option<Js.Error>)
    returns (r: Result<Campaign, Js.Error>)
    modifies db
    ensures failure.Some? ==> r == Err(MapValidationError(failure.value)) && db.docs == old(db.docs)
    ensures failure.None? && CampaignIndex(old(db.docs), id).None? ==> r == Err(NotFound) && db.docs == old(db.docs)
    ensures failure.None? && CampaignIndex(old(db.docs), id).Some? ==>
      var i := CampaignIndex(old(db.docs), id).value;
      r == Ok(PatchCampaign(old(db.docs)[i], patch)) && db.docs == old(db.docs)[i := r.value]
  {
    var found := db.FindByIdAndUpdate(id, patch, failure);
    var outcome: Result<Campaign, Js.Error> :=
      match found
      case Err(e) => Err(e)
      case Ok(None) => Err(NotFound)
      case Ok(Some(c)) => Ok(c);
    r := if outcome.Err? then Err(MapValidationError(outcome.error)) else outcome;
  }

  /** `deleteCampaign(id)`: remove the campaign; a 404 when there is none, a 400 for a CastError. */
  method DeleteCampaign(db: CampaignCollection, id: Id, failure: Option<Js.Error>) returns (r: Result<(), Js.Error>)
    modifies db
    ensures failure.Some? ==> r == Err(MapCastError(failure.value)) && db.docs == old(db.docs)
    ensures failure.None? && CampaignIndex(old(db.docs), id).None? ==> r == Err(NotFound) && db.docs == old(db.docs)
    ensures failure.None? && CampaignIndex(old(db.docs), id).Some? ==>
      var i := CampaignIndex(old(db.docs), id).value;
      r == Ok(()) && db.docs == old(db.docs)[..i] + old(db.docs)[i + 1..]
    ensures failure.None? && CampaignIndex(old(db.docs), id).Some? && DistinctIds(old(db.docs)) ==>
      |db.docs| == |old(db.docs)| - 1 && forall k :: 0 <= k < |db.docs| ==> db.docs[k].id != id
  {
    if failure.None? && CampaignIndex(db.docs, id).Some? && DistinctIds(db.docs) {
      DeleteRemovesOnlyTarget(db.docs, id);
    }
    var found := db.FindByIdAndDelete(id, failure);
    var outcome: Result<(), Js.Error> :=
      match found
      case Err(e) => Err(e)
      case Ok(None) => Err(NotFound)
      case Ok(Some(_)) => Ok(());
    r := if outcome.Err? then Err(MapCastError(outcome.error)) else outcome;
  }

  /** No two stored campaigns share an id. */
  ghost predicate DistinctIds(docs: seq<Campaign>)
  {
    forall i, j :: 0 <= i < j < |docs| ==> docs[i].id != docs[j].id
  }

  /**
   * With ids unique, cutting out the campaign found under the id removes exactly that one:
   * no campaign left has the id, and every other campaign is kept, in order.
   */
  lemma DeleteRemovesOnlyTarget(docs: seq<Campaign>, id: Id)
    requires CampaignIndex(docs, id).Some?
    requires DistinctIds(docs)
    ensures var i := CampaignIndex(docs, id).value;
      var after := docs[..i] + docs[i + 1..];
      && |after| == |docs| - 1
      && (forall k :: 0 <= k < |after| ==> after[k].id != id)
      && (forall k :: 0 <= k < i ==> after[k] == docs[k])
      && (forall k :: i < k < |docs| ==> after[k - 1] == docs[k])
  {
    var i := CampaignIndex(docs, id).value;
    var after := docs[..i] + docs[i + 1..];
    forall k | 0 <= k < |after| ensures after[k].id != id {
      if k < i {
        assert after[k] == docs[k];
      } else {
        assert after[k] == docs[k + 1];
      }
    }
  }
}
