/**
 * The campaign request handlers: guard chains from the request fields and the outcome of
 * the service call to the status and body written back. Request fields are JavaScript
 * values; the service outcomes are parameters.
 */
module CampaignController {
  import opened Wrappers
  import opened Models
  import opened Js
  import opened Http
  import opened Database
  import opened CampaignQuery
  import CampaignService

  /** The fields `createCampaign` destructures from the request body. */
  datatype CampaignBody = CampaignBody(name: Value, channel: Value, startDate: Value, endDate: Value, budget: Value)

  const AllFieldsRequired := "All fields are required."
  const BudgetMustBePositive := "Budget must be a positive number."
  const StartBeforeEnd := "Start date must be before end date."
  const UnknownChannel := "The specified channel does not exist"
  const CampaignNotFound := "Campaign not found"
  const CampaignDeleted := "Campaign deleted successfully"

  predicate AllPresent(b: CampaignBody)
  {
    Truthy(b.name) && Truthy(b.channel) && Truthy(b.startDate) && Truthy(b.endDate) && Truthy(b.budget)
  }

  /** `isNaN(budget) || budget <= 0`: both coerce the budget with Number. */
  predicate BadBudget(b: CampaignBody, co: Coercions)
  {
    var n := ToNumber(b.budget, co);
    n.None? || n.value <= 0.0
  }

  /** The message of the first of the synchronous guards of `createCampaign` that fails. */
  function CreateGuard(b: CampaignBody, co: Coercions): (r: Option<string>)
    ensures r == Some(AllFieldsRequired) <==> !AllPresent(b)
    ensures r == Some(BudgetMustBePositive) <==> AllPresent(b) && BadBudget(b, co)
    ensures r == Some(StartBeforeEnd) <==>
      AllPresent(b) && !BadBudget(b, co) && DateAtLeast(ToDate(b.startDate, co), ToDate(b.endDate, co))
    ensures r.None? <==>
      AllPresent(b) && !BadBudget(b, co) && !DateAtLeast(ToDate(b.startDate, co), ToDate(b.endDate, co))
  {
    if !AllPresent(b) then Some(AllFieldsRequired)
    else if BadBudget(b, co) then Some(BudgetMustBePositive)
    else if DateAtLeast(ToDate(b.startDate, co), ToDate(b.endDate, co)) then Some(StartBeforeEnd)
    else None
  }

  /** A budget of 0 is falsy, so it is refused by the first guard, before the budget check. */
  lemma ZeroBudgetNeedsAllFields(b: CampaignBody, co: Coercions)
    requires b.budget == Num(0.0) || b.budget == Str("")
    ensures CreateGuard(b, co) == Some(AllFieldsRequired)
  {
  }

  /** Equal start and end dates are refused: the check is `>=`. */
  lemma EqualDatesRefused(b: CampaignBody, co: Coercions)
    requires AllPresent(b) && !BadBudget(b, co)
    requires ToDate(b.startDate, co).Some? && ToDate(b.startDate, co) == ToDate(b.endDate, co)
    ensures CreateGuard(b, co) == Some(StartBeforeEnd)
  {
  }

  /** A date that does not parse compares false, so it passes the date guard. */
  lemma InvalidDatePassesDateGuard(b: CampaignBody, co: Coercions)
    requires AllPresent(b) && !BadBudget(b, co)
    requires ToDate(b.startDate, co).None? || ToDate(b.endDate, co).None?
    ensures CreateGuard(b, co).None?
  {
  }

  /**
   * `createCampaign`: the guards, then the channel lookup (`lookup`: what `Channel.findById`
   * gave or threw), then the save and the re-read of the new campaign (`saved`: the campaign
   * read back, null, or what either call threw); any error thrown on the way becomes a 400
   * with its message.
   */
  function CreateReply(b: CampaignBody, co: Coercions, lookup: Result<Option<Channel>, Error>,
                       saved: Result<Option<Campaign>, Error>): (r: Response<Campaign>)
    ensures CreateGuard(b, co).Some? ==> r == WithMessage(400, CreateGuard(b, co).value)
    ensures CreateGuard(b, co).None? && lookup == Ok(None) ==> r == WithMessage(400, UnknownChannel)
    ensures CreateGuard(b, co).None? && lookup.Err? ==> r == WithMessage(400, lookup.error.message)
    ensures CreateGuard(b, co).None? && lookup.Ok? && lookup.value.Some? && saved.Err? ==>
      r == WithMessage(400, saved.error.message)
    ensures r.status == 201 <==>
      CreateGuard(b, co).None? && lookup.Ok? && lookup.value.Some? && saved.Ok? && saved.value.Some?
    ensures r.status == 201 ==> r.body == Json(saved.value.value)
    ensures r.status in {201, 400, 404}
  {
    if CreateGuard(b, co).Some? then WithMessage(400, CreateGuard(b, co).value)
    else match lookup
      case Err(e) => WithMessage(400, e.message)
      case Ok(None) => WithMessage(400, UnknownChannel)
      case Ok(Some(_)) =>
        match saved
        case Err(e) => WithMessage(400, e.message)
        case Ok(None) => WithMessage(404, CampaignNotFound)
        case Ok(Some(c)) => Response(201, Json(c))
  }

  /**
   * Runs `createCampaign` against the stores. `cast` is what the ORM makes of the body
   * (the document to save, or the error `save` throws); the failures are what the three
   * store calls would throw. The campaign is stored exactly when the guards pass, the
   * channel is found and the save succeeds; a failure of the re-read after that still
   * answers 400 although the campaign stays stored. A 201 means exactly one campaign was
   * added, and it is the one sent back.
   */
  method HandleCreate(campaigns: CampaignCollection, channels: ChannelCollection, b: CampaignBody, co: Coercions,
                      cast: Result<CampaignData, Error>, newId: Id,
                      lookupFailure: Option<Error>, saveFailure: Option<Error>, rereadFailure: Option<Error>)
    returns (r: Response<Campaign>)
    requires campaigns.Fresh(newId)
    modifies campaigns
    ensures CreateGuard(b, co).Some? ==> r == WithMessage(400, CreateGuard(b, co).value) && campaigns.docs == old(campaigns.docs)
    ensures CreateGuard(b, co).Some? || lookupFailure.Some? || channels.FindById(ToStr(b.channel, co)).None?
      ==> r.status == 400 && campaigns.docs == old(campaigns.docs)
    ensures r.status == 201 <==>
      CreateGuard(b, co).None? && lookupFailure.None? && channels.FindById(ToStr(b.channel, co)).Some?
      && cast.Ok? && saveFailure.None? && rereadFailure.None?
    ensures r.status == 201 ==>
      campaigns.docs == old(campaigns.docs) + [Campaign(newId, cast.value.name, cast.value.channel,
                                                        cast.value.startDate, cast.value.endDate, cast.value.budget)]
      && r.body == Json(campaigns.docs[|campaigns.docs| - 1])
    ensures r.status != 201 ==> r.status == 400
    ensures var stored := CreateGuard(b, co).None? && lookupFailure.None?
                          && channels.FindById(ToStr(b.channel, co)).Some? && cast.Ok? && saveFailure.None?;
      campaigns.docs == if stored then old(campaigns.docs) + [Campaign(newId, cast.value.name, cast.value.channel,
                                                                       cast.value.startDate, cast.value.endDate, cast.value.budget)]
                        else old(campaigns.docs)
    ensures rereadFailure.Some? ==> r.status == 400
  {
    if CreateGuard(b, co).Some? {
      return WithMessage(400, CreateGuard(b, co).value);
    }
    var lookup: Result<Option<Channel>, Error> :=
      if lookupFailure.Some? then Err(lookupFailure.value) else Ok(channels.FindById(ToStr(b.channel, co)));
    var saved: Result<Option<Campaign>, Error> := Ok(None);
    if lookup.Ok? && lookup.value.Some? {
      var created: Result<Campaign, Error>;
      if cast.Err? {
        created := Err(cast.error);
      } else {
        created := CampaignService.CreateCampaign(campaigns, cast.value, newId, saveFailure);
      }
      if created.Ok? {
        IndexOfAppended(old(campaigns.docs), CampaignId, created.value);
        saved := if rereadFailure.Some? then Err(rereadFailure.value) else Ok(campaigns.FindById(created.value.id));
      } else {
        saved := Err(created.error);
      }
    }
    r := CreateReply(b, co, lookup, saved);
  }

  /** The query string of `GET /api/campaigns`: page and limit as `parseInt` read them (None is NaN). */
  datatype ListRequest = ListRequest(page: Option<int>, limit: Option<int>, filter: Option<string>,
                                     sortField: Option<string>, sortOrder: Option<string>)

  datatype ListParams = ListParams(page: int, limit: int, filter: string, sortField: string, sortOrder: string)

  /** `s || d` on a query-string value: absent and "" are falsy. */
  function StrOr(s: Option<string>, d: string): (r: string)
    ensures s.Some? && s.value != "" ==> r == s.value
    ensures s.None? || s.value == "" ==> r == d
  {
    if s.Some? && s.value != "" then s.value else d
  }

  /** The defaults of `getAllCampaigns`: page 1, limit 10, no filter, sort on startDate ascending. */
  function Defaults(q: ListRequest): (p: ListParams)
    ensures p.page != 0 && p.limit != 0 && p.sortField != "" && p.sortOrder != ""
    ensures q.page.None? || q.page == Some(0) ==> p.page == 1
    ensures q.limit.None? || q.limit == Some(0) ==> p.limit == 10
    ensures q.sortField.None? ==> p.sortField == "startDate"
    ensures q.sortOrder.None? ==> p.sortOrder == "asc"
    ensures q.filter.None? ==> p.filter == ""
  {
    ListParams(IntOr(q.page, 1), IntOr(q.limit, 10), StrOr(q.filter, ""),
               StrOr(q.sortField, "startDate"), StrOr(q.sortOrder, "asc"))
  }

  const AllowedSortFields: seq<string> := ["name", "startDate", "endDate", "budget", "channel"]

  /** The allow-lists for the sort field and order; None when the service may be called. */
  function ListGuard(p: ListParams): (r: Option<string>)
    ensures r == Some("Invalid sort field") <==> p.sortField !in AllowedSortFields
    ensures r == Some("Invalid sort order") <==> p.sortField in AllowedSortFields && p.sortOrder !in ["asc", "desc"]
    ensures r.None? <==> p.sortField in AllowedSortFields && p.sortOrder in ["asc", "desc"]
  {
    if p.sortField !in AllowedSortFields then Some("Invalid sort field")
    else if p.sortOrder !in ["asc", "desc"] then Some("Invalid sort order")
    else None
  }

  /** `getAllCampaigns`: a refused sort is a 400 and the service is not consulted. */
  function ListReply(q: ListRequest, result: Result<Listing, Error>): (r: Response<Listing>)
    ensures ListGuard(Defaults(q)).Some? ==> r == WithMessage(400, ListGuard(Defaults(q)).value)
    ensures ListGuard(Defaults(q)).None? && result.Ok? ==> r == Response(200, Json(result.value))
    ensures ListGuard(Defaults(q)).None? && result.Err? ==> r == WithMessage(500, result.error.message)
  {
    match ListGuard(Defaults(q))
    case Some(m) => WithMessage(400, m)
    case None =>
      match result
      case Ok(l) => Response(200, Json(l))
      case Err(e) => WithMessage(500, e.message)
  }

  /** With no query string at all, the list is sorted on startDate ascending, ten to a page from page 1. */
  lemma ListWithoutQuery()
    ensures Defaults(ListRequest(None, None, None, None, None)) == ListParams(1, 10, "", "startDate", "asc")
    ensures ListGuard(Defaults(ListRequest(None, None, None, None, None))).None?
  {
  }

  /**
   * A negative page makes the skip negative, which the store refuses: the request gets a 500
   * whose message starts with "Error fetching campaigns: ".
   */
  lemma NegativePageIsServerError(q: ListRequest, docs: seq<Campaign>, channels: seq<Channel>, now: int)
    requires q.page.Some? && q.page.value < 0 && (q.limit.None? || q.limit.value >= 0)
    requires ListGuard(Defaults(q)).None?
    ensures var p := Defaults(q);
      var r := ListReply(q, CampaignService.Listed(docs, QueryFor(p.filter, channels), p.page, p.limit, p.sortField, p.sortOrder, now, None));
      r.status == 500 && r.body.Message? && Text.StartsWith(r.body.text, CampaignService.FetchErrorPrefix)
  {
    var p := Defaults(q);
    assert p.limit >= 1;
    assert Skip(p.page, p.limit) < 0 by {
      assert (p.page - 1) * p.limit <= -p.limit;
      assert Skip(p.page, p.limit) + p.limit == p.page * p.limit;
    }
  }

  /** Get, update and delete: a 404 error keeps its status and message; every other error is a 500. */
  function ErrorReply<T>(e: Error): (r: Response<T>)
    ensures e.status == Some(404) ==> r == WithMessage(404, e.message)
    ensures e.status != Some(404) ==> r == WithMessage(500, e.message)
  {
    if e.status == Some(404) then WithMessage(404, e.message) else WithMessage(500, e.message)
  }

  /** `getCampaignById`: 200 with the campaign, or the error mapped by ErrorReply. */
  function GetReply(result: Result<Campaign, Error>): (r: Response<Campaign>)
    ensures result.Ok? ==> r == Response(200, Json(result.value))
    ensures result.Err? ==> r == ErrorReply(result.error)
    ensures r.status in {200, 404, 500}
  {
    match result
    case Ok(c) => Response(200, Json(c))
    case Err(e) => ErrorReply(e)
  }

  /**
   * The service's 400 for an id that is no ObjectId does not survive the controller:
   * it reaches the client as a 500 with the message 'Invalid campaign ID format'.
   */
  lemma CastErrorBecomesServerError(e: Error)
    requires e.name == "CastError"
    ensures GetReply(Err(CampaignService.MapCastError(e))) == WithMessage(500, "Invalid campaign ID format")
    ensures DeleteReply(Err(CampaignService.MapCastError(e))) == WithMessage(500, "Invalid campaign ID format")
  {
  }

  /** A missing campaign is a 404 'Campaign not found' from get, update and delete alike. */
  lemma MissingCampaignIsNotFound(co: Coercions, startDate: Value, endDate: Value)
    ensures GetReply(Err(CampaignService.NotFound)) == WithMessage(404, CampaignNotFound)
    ensures DeleteReply(Err(CampaignService.NotFound)) == WithMessage(404, CampaignNotFound)
    ensures UpdateGuard(startDate, endDate, co).None? ==>
      UpdateReply(startDate, endDate, co, Err(CampaignService.NotFound)) == WithMessage(404, CampaignNotFound)
  {
  }

  /** The date guard of `updateCampaign`: only when both dates are given and the start is strictly later. */
  function UpdateGuard(startDate: Value, endDate: Value, co: Coercions): (r: Option<string>)
    ensures r.Some? <==> Truthy(startDate) && Truthy(endDate) && DateAfter(ToDate(startDate, co), ToDate(endDate, co))
    ensures r.Some? ==> r.value == StartBeforeEnd
  {
    if Truthy(startDate) && Truthy(endDate) && DateAfter(ToDate(startDate, co), ToDate(endDate, co))
    then Some(StartBeforeEnd) else None
  }

  /** Equal dates, or only one of the two, pass the update guard. */
  lemma UpdateGuardPasses(startDate: Value, endDate: Value, co: Coercions)
    requires !Truthy(startDate) || !Truthy(endDate) || ToDate(startDate, co) == ToDate(endDate, co)
    ensures UpdateGuard(startDate, endDate, co).None?
  {
  }

  /** `updateCampaign`: the guard, then 200 with the updated campaign or the error mapped by ErrorReply. */
  function UpdateReply(startDate: Value, endDate: Value, co: Coercions, result: Result<Campaign, Error>): (r: Response<Campaign>)
    ensures UpdateGuard(startDate, endDate, co).Some? ==> r == WithMessage(400, StartBeforeEnd)
    ensures UpdateGuard(startDate, endDate, co).None? && result.Ok? ==> r == Response(200, Json(result.value))
    ensures UpdateGuard(startDate, endDate, co).None? && result.Err? ==> r == ErrorReply(result.error)
  {
    if UpdateGuard(startDate, endDate, co).Some? then WithMessage(400, StartBeforeEnd)
    else match result
      case Ok(c) => Response(200, Json(c))
      case Err(e) => ErrorReply(e)
  }

  /** `deleteCampaign`: 200 'Campaign deleted successfully', or the error mapped by ErrorReply. */
  function DeleteReply(result: Result<(), Error>): (r: Response<()>)
    ensures result.Ok? ==> r == WithMessage(200, CampaignDeleted)
    ensures result.Err? ==> r == ErrorReply(result.error)
  {
    match result
    case Ok(_) => WithMessage(200, CampaignDeleted)
    case Err(e) => ErrorReply(e)
  }
}
