# Campaign manager core in Dafny

This project models the core of a small advertising-campaign manager. The backend is an
Express/Mongoose server; the frontend is a React list page and form. The model covers:

- **Spend calculation.** `calculateSpent` works out the amount spent so far. It is 0 before
  a campaign starts and the whole budget after it ends. In between it is the budget shared
  out by whole days passed, rounded to cents.
- **Channel cache.** It keeps one pending read of the channel list. Every channel create,
  update and delete invalidates it.
- **Channel and campaign services.** Their create, read, update and delete operations,
  with the errors that each one rethrows or translates.
- **Campaign listing.**
  - A filter that is blank after `trim()` lists everything.
  - Any other filter is regex-escaped and compiled case-insensitively.
  - It matches a campaign's name, or the name of a channel in the cached list.
  - The matches are sorted by one field, windowed by `(page - 1) * limit` and `limit`, and
    each one gets its spent amount.
- **Controllers.**
  - Create, list, get, update and delete for campaigns; their guards use JavaScript
    truthiness and the defaults of `parseInt(...) || d`.
  - Create, list, get, update and delete for channels.
- **Authentication.**
  - Register and login, with passwords trimmed before hashing or comparing.
  - Both failures of a login give the same 401 message.
  - The controllers' fall-back statuses and messages.
  - The bearer-token middleware.
- **List page.**
  - The status text: PLANNED, ACTIVE or COMPLETED.
  - The pagination state each handler updates.
  - The arithmetic of "Showing a to b of n entries" and of the Previous and Next buttons.
- **Campaign form.**
  - It keeps one channel per name: the last one wins, in order of first appearance.
  - How a typed field, and the numeric budget, reach the request body.

The JavaScript values the controllers inspect are an explicit `Js.Value`: undefined, null,
booleans, numbers, NaN and strings; arrays and objects are left out. `Truthy` is their truthiness. Parsing a number, parsing
a date and printing a number are the parameters bundled in `Js.Coercions`.

A storage call takes an optional failure. When a failure is given, the call changes nothing
and throws that error. Mongoose's collections are the classes of module `Database`: their
documents are a `seq` the methods reassign. The channel cache and the list page's state are
classes too. Everything else is functions over values.

The token middleware follows the code, not the scheme syntax of section 2.1 of RFC 6750:

- `replace('Bearer ', '')` removes the first occurrence of `"Bearer "` anywhere in the header.
- The match is case-sensitive.
- A header without that text is passed on whole as the token.

`AuthMiddleware.LowerCaseSchemeNotStripped` shows the effect for a lower-case scheme.

The cache follows the code as well. The cache's documentation says that a failed fetch
resets it so that the next call retries. The code keeps the rejected promise until the next
`invalidate()`. The model keeps the failure: `ChannelCache.Cache.GetChannels` returns it
again without fetching.

The campaign controllers translate errors as written:

- An id that is no ObjectId gives a CastError. The service turns it into a 400 "Invalid
  campaign ID format".
- The get and delete controllers answer every status other than 404 with a 500. That
  includes this 400, as `CampaignController.CastErrorBecomesServerError` states.

## Model

| member | source | states |
|---|---|---|
| SpentCalculator.Days | backend/utils/spentCalculator.js:20-21 | The day count of a span is its ceiling in days: (r - 1) days < ms <= r days, with 86 400 000 ms a day. |
| SpentCalculator.DaysMonotone | backend/utils/spentCalculator.js:20-21 | A longer span never counts fewer days. |
| SpentCalculator.Round2 | backend/utils/spentCalculator.js:24 | `Number(x.toFixed(2))` is a whole number of cents, within half a cent of x. |
| SpentCalculator.Round2Monotone | backend/utils/spentCalculator.js:24 | Rounding to cents is monotone. |
| SpentCalculator.Round2OfWholeCents | backend/utils/spentCalculator.js:24 | An amount already in whole cents is unchanged by rounding. |
| SpentCalculator.CalculateSpent | backend/utils/spentCalculator.js:7-25 | The result is NaN exactly when now, start and end are the same instant. Only then does the active branch divide 0 by 0 days. |
| SpentCalculator.SpentCases | backend/utils/spentCalculator.js:13-24 | For start < end, three cases. Before the start it is 0. After the end it is the unrounded budget. In between it is round2(min(budget, budget / totalDays * passedDays)), where totalDays and passedDays are day ceilings and 0 <= passedDays <= totalDays. |
| SpentCalculator.ShareBounds | backend/utils/spentCalculator.js:23 | A non-negative budget shared over at most the total days lies between 0 and the budget. |
| SpentCalculator.ShareMonotone | backend/utils/spentCalculator.js:23 | The share grows with the days passed. |
| SpentCalculator.SpentNonNegative | backend/utils/spentCalculator.js:13-24 | For start < end and any non-negative budget, the spent amount is a number and never negative. |
| SpentCalculator.SpentWithinBudget | backend/utils/spentCalculator.js:13-24 | For start < end and a non-negative budget in whole cents, the spent amount is also at most the budget. |
| SpentCalculator.SpentAtStart | backend/utils/spentCalculator.js:20-24 | At the start instant nothing is spent. |
| SpentCalculator.SpentAtEnd | backend/utils/spentCalculator.js:17-24 | At the end instant the spent amount is the rounded budget. That is the budget itself when the budget is in whole cents. |
| SpentCalculator.SpentMonotone | backend/utils/spentCalculator.js:13-24 | For a whole-cent budget, the spent amount never decreases as time passes. |
| SpentCalculator.SpentHalfway | backend/utils/spentCalculator.js:20-24 | A budget of 1000 over 10 days has spent 500 after 5 days. |
| SpentCalculator.SubCentBudgetRoundsUp | backend/utils/spentCalculator.js:23-24 | A budget of 0.005 shows 0.01 spent at its end, more than the budget. |
| ChannelCache.Settle | backend/utils/channelCache.js:19 | Awaiting the cached promise yields the fetched channels exactly when the fetch succeeded, and its error otherwise. |
| ChannelCache.Cache.constructor | backend/utils/channelCache.js:9 | The cache starts empty, with no fetch made. |
| ChannelCache.Cache.Invalidate | backend/utils/channelCache.js:11-13 | The cache is empty afterwards. |
| ChannelCache.Cache.GetChannels | backend/utils/channelCache.js:15-20 | An empty cache fetches once and keeps the outcome, a list or a failure. A filled cache does not fetch and is unchanged. The caller always gets the stored outcome. |
| ChannelCache.Cache.Warm | backend/utils/channelCache.js:23-25 | Behaves as GetChannels. |
| ChannelCache.ReadSaveRead | backend/utils/channelCache.js:15-20 | Two reads with no invalidation between them return the same outcome, even with a save between them. Together they fetch at most once, and not at all when the cache was filled. |
| ChannelCache.InvalidateTwice | backend/utils/channelCache.js:11-13 | Invalidating twice is invalidating once, and fetches nothing. |
| Models.PatchChannel | backend/services/channelService.js:36 | An update sets each field it carries, keeps every other field and keeps the id. |
| Models.PatchCampaign | backend/services/campaignService.js:135-139 | An update sets each field it carries, keeps every other field and keeps the id. |
| Models.PatchChannelIdentityIdempotent | backend/services/channelService.js:36 | An update with no fields leaves a channel as it was, and applying one update twice is applying it once. |
| Models.PatchCampaignIdentityIdempotent | backend/services/campaignService.js:135-139 | An update with no fields leaves a campaign as it was, and applying one update twice is applying it once. |
| Models.PatchCampaignDisjointCommute | backend/services/campaignService.js:135-139 | Two updates that set different fields give the same campaign in either order. |
| Database.ChannelCollection.FindByIdAndUpdate | backend/services/channelService.js:36 | `findByIdAndUpdate(id, data, { new: true })`: the patched document replaces the stored one with that id and is returned. Null when there is none. |
| Database.IndexOfId | backend/services/campaignService.js:105 | `findById` finds the first document with the id, or reports that no document has it. `ChannelIndex` and `CampaignIndex` are this lookup on channels and on campaigns. |
| Database.IndexOfAppended | backend/services/campaignService.js:22-29 | A document saved under a fresh id is then found at the end of the store. |
| Database.CampaignCollection.FindByIdAndDelete | backend/services/campaignService.js:167 | The document with the id is removed and returned; null when there is none. |
| ChannelService.CreateChannel | backend/services/channelService.js:5-14 | A successful save appends the channel and then empties the cache. A failed save changes neither and is rethrown. |
| ChannelService.GetAllChannels | backend/services/channelService.js:16-22 | Every stored channel, read from the store rather than the cache. |
| ChannelService.GetChannelById | backend/services/channelService.js:25-31 | The stored channel with the id, or null when no channel has it. |
| ChannelService.UpdateChannel | backend/services/channelService.js:34-42 | The channel is patched in place and returned, or null (store unchanged) when absent. The cache is emptied in both cases, but not when the store throws. |
| ChannelService.DeleteChannel | backend/services/channelService.js:44-52 | The channel is removed and returned, or null when absent. The cache is emptied in both cases, but not when the store throws. |
| ChannelService.MutateThenRead | backend/services/channelService.js:5-52 | After any successful create, update or delete, the next cached read makes one fetch and sees the current store. |
| CampaignQuery.EscapeRoundTrip | backend/services/campaignService.js:49-50 | The escaped filter is a pattern of literal characters only, and it matches the filter text itself. |
| CampaignQuery.EscapeInjective | backend/services/campaignService.js:49 | Different filters give different patterns. |
| CampaignQuery.RegExpI | backend/services/campaignService.js:50 | A pattern is given a compiled form exactly when it uses no regular-expression operator. |
| CampaignQuery.FilterRegex | backend/services/campaignService.js:48-50 | The regex built from a filter matches exactly the strings that contain the trimmed filter, ignoring ASCII case. |
| CampaignQuery.MatchingChannelIds | backend/services/campaignService.js:53 | An id is selected exactly when some cached channel with that id has a matching name; there is at most one id per channel. |
| CampaignQuery.MatchingChannelIdsAppend | backend/services/campaignService.js:53 | The selected ids keep the order of the channel list. |
| CampaignQuery.QueryFor | backend/services/campaignService.js:47-61 | The query is `{}` exactly when the trimmed filter is empty. |
| CampaignQuery.QueryMeaning | backend/services/campaignService.js:47-60 | A blank filter matches every campaign. Otherwise a campaign matches exactly when its own name, or the name of a cached channel with its channel id, contains the trimmed filter, ignoring case. |
| CampaignQuery.EmptyFilterFindsAll | backend/services/campaignService.js:47-48 | The empty filter selects every stored campaign, in storage order. |
| CampaignQuery.Select | backend/services/campaignService.js:68-75 | `find` and `countDocuments` see the same sub-multiset of the store: a campaign is in it exactly when it is stored and matches the query. |
| CampaignQuery.StrLeTotal | backend/services/campaignService.js:65-66 | Any two strings are ordered one way or the other. |
| CampaignQuery.StrLeTransitive | backend/services/campaignService.js:65-66 | String order is transitive. |
| CampaignQuery.InOrderTotal | backend/services/campaignService.js:65-66 | Under `{ [sortField]: ±1 }` any two campaigns are comparable. |
| CampaignQuery.InOrderTransitive | backend/services/campaignService.js:65-66 | The sort order is transitive, in both directions and for every field. |
| CampaignQuery.Sort | backend/services/campaignService.js:65-73 | `.sort(sort)` returns a permutation of the matches, ordered by the field in the requested direction. |
| CampaignQuery.Window | backend/services/campaignService.js:71-72 | `.skip(n).limit(l)` is the stretch starting after n entries, of length min(abs(l), remaining). An l of 0 means no limit, and a skip past the end gives nothing. |
| CampaignQuery.WithSpent | backend/services/campaignService.js:78-82 | Every returned campaign keeps its stored fields and order and gains `spent = calculateSpent(c)` at the same instant. |
| CampaignQuery.SortDirection | backend/services/campaignService.js:66 | The direction is -1 exactly for "desc", and 1 for anything else. |
| CampaignQuery.Skip | backend/services/campaignService.js:63 | `(page - 1) * limit` is 0 on page 1, and for page >= 1 it is non-negative and ends one limit before page * limit. |
| CampaignQuery.ListingContents | backend/services/campaignService.js:63-89 | For page >= 1 and limit >= 1, and whatever sorted permutation of the matches the store picked for the request, the store answers. It returns at most `limit` campaigns, each a stored match of the query with its spent amount, in sorted order. It echoes page and limit, and `total` counts every match. |
| CampaignQuery.StoreListingContents | backend/services/campaignService.js:63-89 | The same holds for the order `ListFromStore` uses, which breaks ties by storage order. |
| CampaignQuery.ListingWindow | backend/services/campaignService.js:63-73 | Page p of l campaigns is the stretch after the first (p - 1) * l entries of the order the store picked for that request. |
| CampaignQuery.TwelveMatchesFivePerPage | backend/services/campaignService.js:63-74 | With 12 matches and 5 per page, page 2 holds the 6th to 10th entries of the store's order for that request and page 3 holds two. |
| CampaignQuery.TiedPagesOverlap | backend/services/campaignService.js:64-73 | Two campaigns with equal sort keys may be served in either order, so page 1 and page 2 of one per page may show the same campaign. |
| CampaignQuery.SortedByIdUnique | backend/services/campaignService.js:64-73 | Sorted by the field and then by id, a set of campaigns with distinct ids has exactly one order. |
| CampaignQuery.StoreOrderByIdUnique | backend/services/campaignService.js:64-73 | With the `_id` tie-break, every request over the same matches sees the same order. |
| CampaignQuery.ConsecutivePagesById | backend/services/campaignService.js:63-73 | With the `_id` tie-break, pages p and p + 1, even from separate requests, together give the 2l entries after the first (p - 1) * l, with no overlap and no gap. |
| CampaignService.FetchError | backend/services/campaignService.js:90-93 | The rethrown error has no status, and its message is "Error fetching campaigns: " followed by the cause's message. |
| CampaignService.Listed | backend/services/campaignService.js:63-93 | A store failure, or the driver's refusal of a negative skip, becomes a FetchError. Otherwise the result is the store's answer. |
| CampaignService.GetAllCampaigns | backend/services/campaignService.js:42-94 | A blank filter leaves the cache alone and lists every campaign. Any other filter reads the channels through the cached promise, which fetches only when the cache is empty. A cached failure is rethrown as a FetchError; a cached list gives the name-or-channel query. |
| CampaignService.CreateCampaign | backend/services/campaignService.js:22-29 | The campaign is appended, or the store's error is rethrown with the store unchanged. |
| CampaignService.MapCastError | backend/services/campaignService.js:116-121 | A CastError becomes a 400 "Invalid campaign ID format"; any other error passes through. |
| CampaignService.MapValidationError | backend/services/campaignService.js:149-154 | A ValidationError becomes a 400 "Invalid update data"; any other error, a CastError included, passes through. |
| CampaignService.GetCampaignById | backend/services/campaignService.js:103-123 | The stored campaign with the id, or a 404 "Campaign not found" when there is none; a failure is mapped by MapCastError. |
| CampaignService.UpdateCampaign | backend/services/campaignService.js:133-156 | The campaign is patched in place and returned. A 404 leaves the store unchanged, and a failure is mapped by MapValidationError. |
| CampaignService.DeleteCampaign | backend/services/campaignService.js:165-181 | The campaign is removed and every other campaign is kept in order. A 404 leaves the store unchanged, and a failure is mapped by MapCastError. With unique ids, the store afterwards is one shorter and holds no campaign with the id. |
| CampaignService.DeleteRemovesOnlyTarget | backend/services/campaignService.js:167 | With unique ids, cutting out the campaign found under the id leaves none with that id and keeps the others in order. |
| CampaignController.CreateGuard | backend/controllers/campaignController.js:27-43 | Each of the three 400 messages is given exactly when its check is the first to fail. The checks are a falsy field, a budget that is NaN or <= 0, and a start not before the end. |
| CampaignController.ZeroBudgetNeedsAllFields | backend/controllers/campaignController.js:29-31 | A budget of 0 or "" is refused as a missing field, before the budget check. |
| CampaignController.EqualDatesRefused | backend/controllers/campaignController.js:39-43 | Equal start and end dates are refused. |
| CampaignController.InvalidDatePassesDateGuard | backend/controllers/campaignController.js:39-43 | A date that does not parse passes the date check, because comparisons with an Invalid Date are false. |
| CampaignController.CreateReply | backend/controllers/campaignController.js:25-65 | The guards come first. They are followed by 400 for an unknown channel, 400 with the message of any thrown error, 404 when the re-read misses and 201 with the stored document; no other status. |
| CampaignController.HandleCreate | backend/controllers/campaignController.js:25-65 | The store gains exactly the new campaign when the guards pass, the channel is found, the body casts and the save succeeds, and is unchanged otherwise. The reply is 201 with that campaign exactly when the re-read succeeds as well; a failed re-read answers 400 although the campaign stays stored. Every non-201 reply is a 400. |
| Js.IntOr | backend/controllers/campaignController.js:81-82 | `x \|\| d` on an integer (`parseInt(x)` here, `error.status` at backend/controllers/authController.js:38) is d for a missing (NaN or undefined) or zero value, and the value otherwise. |
| CampaignController.StrOr | backend/controllers/campaignController.js:83-85 | `x \|\| d` is d for a missing or empty string, and the string otherwise. |
| CampaignController.Defaults | backend/controllers/campaignController.js:81-85 | The defaults are page 1, limit 10, filter "", sortField "startDate" and sortOrder "asc". |
| CampaignController.ListGuard | backend/controllers/campaignController.js:87-96 | Gives "Invalid sort field" exactly when the field is not one of the five sortable fields. Gives "Invalid sort order" exactly when the field is allowed and the order is neither "asc" nor "desc". |
| CampaignController.ListReply | backend/controllers/campaignController.js:79-110 | A failed guard gives 400, a listing gives 200, and any service error gives 500 with its message. |
| CampaignController.ListWithoutQuery | backend/controllers/campaignController.js:81-96 | A request with no query string passes the guards with page 1, limit 10, startDate ascending. |
| CampaignController.NegativePageIsServerError | backend/controllers/campaignController.js:81-109 | A negative page reaches the store as a negative skip and is answered with a 500 "Error fetching campaigns: …". |
| CampaignController.ErrorReply | backend/controllers/campaignController.js:128-133 | An error whose status is 404 gives 404; anything else gives 500, with the error's message. |
| CampaignController.GetReply | backend/controllers/campaignController.js:121-134 | Found gives 200 with the campaign; an error gives ErrorReply. Only 200, 404 and 500 occur. |
| CampaignController.CastErrorBecomesServerError | backend/controllers/campaignController.js:128-133 | The service's 400 for a malformed id reaches the client as a 500 from get and delete. |
| CampaignController.MissingCampaignIsNotFound | backend/controllers/campaignController.js:128-131 | A missing campaign is a 404 "Campaign not found" from get, update and delete. |
| CampaignController.UpdateGuard | backend/controllers/campaignController.js:147-150 | Refuses exactly when both dates are present and the start is after the end. |
| CampaignController.UpdateGuardPasses | backend/controllers/campaignController.js:147-150 | An update with a missing date, or with equal dates, passes the date check. |
| CampaignController.UpdateReply | backend/controllers/campaignController.js:145-160 | The date guard gives 400. After it, success gives 200 with the updated campaign and an error gives ErrorReply. |
| CampaignController.DeleteReply | backend/controllers/campaignController.js:171-181 | Success gives 200 "Campaign deleted successfully"; an error gives ErrorReply. |
| ChannelController.CreateGuard | backend/controllers/channelController.js:10-16 | Gives "Name and status are required" exactly when name or status is falsy. Gives "Invalid  status value" exactly when both are present and the status is neither "active" nor "passive". |
| ChannelController.StatusIsCaseSensitive | backend/controllers/channelController.js:14-16 | "Active" is refused while "active" is accepted. |
| ChannelController.CreateReply | backend/controllers/channelController.js:5-24 | A failed guard gives 400, a stored channel 201 with it, and a thrown error 500 with its message. |
| ChannelController.HandleCreate | backend/controllers/channelController.js:5-24 | The reply is 201 exactly when the guards pass and the save succeeds; the channel is then stored and the cache emptied. A 400 or 500 leaves store and cache as they were. |
| ChannelController.ListReply | backend/controllers/channelController.js:27-34 | The list gives 200; an error gives 500 with its message. |
| ChannelController.DocumentReply | backend/controllers/channelController.js:37-70 | Get and update answer 200 with the channel exactly when one was found, 404 "Channel not found" exactly when the result is null, and 500 on error. |
| ChannelController.DeleteReply | backend/controllers/channelController.js:73-86 | 200 "Channel deleted successfully" exactly when a channel was removed, 404 exactly when the result is null, 500 on error. |
| ChannelController.HandleDeleteUnknown | backend/controllers/channelController.js:73-86 | Deleting an unknown id answers 404, leaves the store unchanged and still empties the cache. |
| AuthService.Stamped | backend/services/authService.js:48-52 | Signing adds the issue and expiry times to the claims and keeps every other claim. |
| AuthService.TokenClaims | backend/services/authService.js:48-49 | The token is signed over exactly `{ id, email }` of the user. |
| AuthService.SessionFor | backend/services/authService.js:47-60 | The reply holds the user's id and email and a token over those claims. |
| AuthService.Register | backend/services/authService.js:23-66 | A taken email gives a 400 "Email already registered" and a store failure is rethrown, both with the store unchanged. Otherwise the user is appended with the hash of the trimmed password, and the session for it is returned. |
| AuthService.Login | backend/services/authService.js:76-116 | An unknown email or a wrong password gives the same 401 error. Success gives the session of a stored user with that email, and a store failure is rethrown. |
| AuthService.LoginAsAppended | backend/services/authService.js:79-110 | A user stored after every user with another email logs in with any password its hash accepts, and gets its own session. |
| AuthService.PaddedPasswordText | backend/services/authService.js:87 | `String(password).trim()` of a password typed with whitespace around it is the bare password. |
| AuthService.RegisterThenLogin | backend/services/authService.js:31-90 | With a sound hash, a newly registered user logs in with the same password. |
| AuthService.PaddedPasswordLogsIn | backend/services/authService.js:87-90 | A password typed with surrounding whitespace logs in as the bare password, at either step. |
| AuthService.LoginFailuresIndistinguishable | backend/services/authService.js:79-95 | An unknown email and a wrong password give identical results. |
| AuthController.MessageOr | backend/controllers/authController.js:39 | `error.message \|\| d`: the message unless it is empty. |
| AuthController.ErrorReply | backend/controllers/authController.js:38-40 | The error reply carries Js.IntOr of the status and MessageOr of the message. |
| AuthController.RegisterReply | backend/controllers/authController.js:21-42 | A falsy email or password gives 400, success gives 201 with the session, and an error gives its status (default 400) and message (default "Error during registration"). |
| AuthController.LoginReply | backend/controllers/authController.js:54-75 | A falsy email or password gives 400, success gives 200 with the session, and an error gives its status (default 401) and message (default "Invalid credentials"). |
| AuthController.ServiceErrorsKeepStatus | backend/controllers/authController.js:36-41 | The service's 400 and 401 reach the client with their own messages. |
| AuthController.UnstatusedErrorDefaults | backend/controllers/authController.js:69-74 | An error without a status answers 400 from register and 401 from login, and an empty message falls back to the default. |
| AuthMiddleware.ExtractToken | backend/middleware/middleware.auth.js:13 | No header gives no token. A header without "Bearer " is the token unchanged, and otherwise its first "Bearer " is removed. |
| AuthMiddleware.ExtractFromBearerHeader | frontend/src/utils/api.js:15 | The header the frontend sends yields exactly the stored token. |
| AuthMiddleware.LowerCaseSchemeNotStripped | backend/middleware/middleware.auth.js:13 | A lower-case "bearer " is not removed. |
| AuthMiddleware.Decode | backend/middleware/middleware.auth.js:13-19 | A missing or empty token is refused; any other token is what `jwt.verify` gives for it. |
| AuthMiddleware.Claim | backend/middleware/middleware.auth.js:20 | Reading a claim gives its value if present, and undefined otherwise. |
| AuthMiddleware.AuthenticateAsWritten | backend/middleware/middleware.auth.js:10-25 | Refuses with 401 "Please authenticate" exactly when decoding fails; otherwise passes on the `userId` claim. |
| AuthMiddleware.AsWrittenUserIdUndefined | backend/middleware/middleware.auth.js:20 | For every token the service issues, the code as written sets `req.userId` to undefined. |
| AuthMiddleware.Authenticate | backend/middleware/middleware.auth.js:10-25 | As written, but passing on the `id` claim. |
| AuthMiddleware.IssuedTokenAuthenticates | backend/middleware/middleware.auth.js:19-21 | An unexpired token from login or register, sent as "Bearer <token>", authenticates as its user's id. |
| AuthMiddleware.RefusalsAlike | backend/middleware/middleware.auth.js:15-24 | No header, an empty header, a bare "Bearer " and a token that does not verify all get the same 401. |
| AuthMiddleware.Run | backend/middleware/middleware.auth.js:10-25 | The middleware as written: `next()` is called exactly when the token decodes, with `req.userId` set to the token's `userId` claim. Otherwise the reply is 401 and the request is untouched. |
| AuthMiddleware.RunWithIssuedToken | backend/middleware/middleware.auth.js:19-21 | Given an unexpired token issued by login or register, the middleware as written calls `next()` with `req.userId` undefined. |
| HomePage.StatusByDate | frontend/src/components/homepage/homepage.js:25-46 | PLANNED exactly when today is before the start. COMPLETED exactly when it is not before the start and is after the end. ACTIVE otherwise. |
| HomePage.StatusText | frontend/src/components/homepage/homepage.js:31-44 | Each status has its own text. |
| HomePage.StatusAgreesWithSpent | frontend/src/components/homepage/homepage.js:30-39 | A planned campaign has spent 0 and a completed one its budget. It is active exactly in the days the calculator shares out. |
| HomePage.TotalPages | frontend/src/components/homepage/homepage.js:73 | `Math.ceil(total / limit)` is the least number of pages that hold the total; it is at least 1 when there is a campaign. |
| HomePage.ShowingTo | frontend/src/components/homepage/homepage.js:204 | `Math.min(page * limit, total)` is the smaller of the two. |
| HomePage.PageButtonsStayInRange | frontend/src/components/homepage/homepage.js:197-211 | On any page from 1 to the last, an enabled Previous or Next leads to a page that exists. Next is disabled exactly when the page shows the last entry. |
| HomePage.RangeWithinPages | frontend/src/components/homepage/homepage.js:204 | On any existing page the range is a non-empty stretch within the total. It holds at most `limit` entries, exactly `limit` except on the last page, which ends at the total. |
| HomePage.RangeCountsListing | frontend/src/components/homepage/homepage.js:204 | The range text counts exactly the campaigns the server returns for that page. |
| HomePage.Dashboard.constructor | frontend/src/components/homepage/homepage.js:7-19 | The page starts empty on page 1, sorted by startDate ascending, with no total. |
| HomePage.Dashboard.Request | frontend/src/components/homepage/homepage.js:55-66 | The query sends the current page, limit, filter, sort field and sort order. |
| HomePage.Dashboard.HandlePerPageChange | frontend/src/components/homepage/homepage.js:84-92 | New limit, back to page 1, everything else kept. |
| HomePage.Dashboard.HandlePageChange | frontend/src/components/homepage/homepage.js:94-96 | Only the page changes. |
| HomePage.Dashboard.HandleFilterChange | frontend/src/components/homepage/homepage.js:98-101 | New filter, back to page 1, everything else kept. |
| HomePage.Dashboard.HandleSortChange | frontend/src/components/homepage/homepage.js:103-107 | New sort field, back to page 1, everything else kept. |
| HomePage.Dashboard.HandleSortOrderChange | frontend/src/components/homepage/homepage.js:142 | Only the sort order changes; the page is kept. |
| HomePage.Dashboard.ApplyFetch | frontend/src/components/homepage/homepage.js:68-75 | The returned campaigns are shown. Total and page count come from the response only when it holds a campaign; an empty response keeps the old pagination. |
| HomePage.FirstFetchFindsNothing | frontend/src/components/homepage/homepage.js:69-75 | When the first fetch finds nothing, the page count stays 0, so Next stays enabled on page 1. |
| CampaignForm.DedupByName | frontend/src/components/campaign/form.js:108 | `new Map(channels.map(c => [c.name, c])).values()` keeps one channel per name: the last with that name, in the order names first appear. No name is lost or added. |
| CampaignForm.DedupExample | frontend/src/components/campaign/form.js:108 | [a, b, a'] with a and a' sharing a name gives [a', b]. |
| CampaignForm.HandleChange | frontend/src/components/campaign/form.js:81-86 | The changed field takes the typed value, and every other field is kept. |
| CampaignForm.SubmitData | frontend/src/components/campaign/form.js:63-66 | The body is the form with `budget` replaced by `Number(budget)` (NaN when it does not parse); every other field is kept. |
| CampaignForm.SubmitKeepsTypedField | frontend/src/components/campaign/form.js:63-86 | A typed field reaches the request body as typed, and a typed budget as its number. |

## Left out

- `populate('channel')` is not modelled. A listed or created campaign carries its channel id, not the channel document. Sorting by `channel` uses the stored id, which is what the store sorts on.
- Mongoose casting and validation of request bodies are not modelled. Services and handlers receive the cast `CampaignData`, `ChannelPatch` and `CampaignPatch`. A CastError or ValidationError is a failure passed to the storage call.
- Ids are strings. A new document's id is a parameter the caller guarantees fresh.
- `Promise.all` and every other asynchrony are left out, so concurrent requests are not modelled. The cache's single-flight sharing of one pending fetch becomes one stored outcome.
- Clocks are a parameter. `new Date()` is one instant `now` for a whole list request; the code reads the clock once per campaign.
- Money and days are exact reals and integers, not IEEE doubles. `toFixed(2)` is rounding half up; binary representation errors are not modelled.
- The regular-expression `i` flag is read as ASCII case folding. Unicode case folding is not modelled.
- Only literal patterns are given a meaning. Escaping means the code only ever builds literal patterns.
- The sort order of strings is by character code. Dates sort as their millisecond values.
- CampaignQuery.ListFromStore: the store promises no order among campaigns with equal sort keys, and may pick a different one per request. `ListFromStore`, which the services, controllers and list page use, keeps ties in storage order, which is one of the answers `StoreOrder` allows. The listing lemmas are stated for any such order.
- Parsing numbers and dates from strings, and printing numbers, are the abstract `Js.Coercions` parameters.
- bcrypt and JWT are abstract. Hashing and signing are function parameters, constrained only by `SoundHasher` and `SoundSigner`. `JWT_SECRET` and the random salt are inside them.
- Express routing, `app.js`, the server start-up and the React rendering are not modelled. So are `localStorage`, navigation and the form's loading of a campaign for editing. `channelRoutes.js` is not mounted in `app.js`; the channel handlers are modelled all the same.
- backend/models/User.js is not part of this model; a user is the record `Models.User`.
- Console logging is left out.
- Query-string values are strings. Arrays or objects from `?a[]=…` are not modelled.
- `Js.Value` has no arrays or objects, so request bodies carrying them are not modelled. Nor are the query operators such a body carries into `findOne` or `findById`: a login body `{"email": {"$ne": null}}` would reach `User.findOne({ email })` as an operator. Nor is the coercion of an array in `isNaN(budget) || budget <= 0`, which `[5]` passes.
- CampaignQuery.ListFromStore: the message of the driver's error for a negative skip is not fixed by the model. Only that it is an error, and what wraps it, are stated.
- ChannelCache.Cache.GetChannels: follows the code, which keeps a rejected fetch until the next invalidation, not its documentation's promise that a failure resets the cache.
- ChannelService.GetAllChannels and ChannelService.GetChannelById read the store directly, as the code does; they take no cache.
- HomePage.TotalPages: stated for a limit of at least 1. The page only sends the per-page options 5, 10 and 25, or a value stored from them.
- HomePage.Dashboard.ApplyFetch: requires the echoed limit to be at least 1, for the same reason.
- SpentCalculator.SpentWithinBudget: the upper bound is stated for a budget in whole cents. SubCentBudgetRoundsUp shows that it fails without it. The lower bound, SpentNonNegative, needs no such condition.
- SpentCalculator.SpentMonotone: stated for a budget in whole cents. Otherwise rounding on the last day can exceed the unrounded budget paid after the end.
- CampaignQuery.ListingContents and CampaignQuery.ListingWindow: stated for page >= 1 and limit >= 1. A negative limit, which the store reads as its absolute value, is covered only by `Window`'s contract.
- CampaignController.HandleCreate: the 404 branch, where the re-read after a save finds nothing, never happens against the sequential store model. Its status is covered by CreateReply.
- The frontend's delete, channel loading and login screens only call the API and re-fetch, so they are not modelled.
- No example with concrete campaign and channel names is proved for filtering. QueryMeaning states the general property instead.

## Findings

| source | as written | input that shows it | evidently intended | confidence | as-written member | corrected member |
|---|---|---|---|---|---|---|
| backend/middleware/middleware.auth.js:20 | `req.userId = decoded.userId`, while every token is signed over `{ id, email }` (backend/services/authService.js:48-52, 98-102) | any unexpired token returned by register or login, sent as `Bearer <token>` | `req.userId = decoded.id` | not executed; latent, since no handler in this core reads `req.userId` | AuthMiddleware.AuthenticateAsWritten, AuthMiddleware.AsWrittenUserIdUndefined, AuthMiddleware.Run, AuthMiddleware.RunWithIssuedToken | AuthMiddleware.Authenticate, AuthMiddleware.IssuedTokenAuthenticates |
| backend/services/campaignService.js:64-73 | `.skip(skip).limit(limit).sort({ [sortField]: direction })`, with no `_id` in the sort | two matching campaigns with equal values of the sort field, limit 1: page 1 and page 2 may both show the same campaign, and the other is never listed | `.sort({ [sortField]: direction, _id: 1 })` | not executed; depends on the order the server picks among ties | CampaignQuery.TiedPagesOverlap | CampaignQuery.StoreOrderByIdUnique, CampaignQuery.ConsecutivePagesById |
