# mysite ads autopilot — verified model of the promotion pipeline

This project models the server-side pipeline of the ads autopilot, which turns a
restaurant's social-media post into a Meta (Facebook/Instagram) ad. It also models
the small pure helpers around that pipeline. The pieces are:

- **Store** (`store.dfy`). The Supabase tables (restaurants, ad-set categories, ad
  sets, posts, events) as sequences inside a `Database` class. Row ids come from a
  counter. `.single()` lookups return a row only when exactly one row matches.
- **Meta client** (`meta_api.dfy`). `MetaClient` records every request with the reply
  Meta gave and takes the replies from a queue. Around it sit the token suffix of the
  request URL, the error and "no id" checks, the cents conversion and
  `buildTargeting`.
- **Classifier** (`classifier.dfy`). What `categorizePost` does with the model's
  answer: the category whitelist, the two clamps of the end date, and the fallback.
  An answer without an end date passes through unclamped, and such a post is never
  selected for expiry.
- **Ad-set resolver** (`ad_sets.dfy`). `getOrCreateAdSet` and the private
  `createAdSet`: validations, the deterministic name, radius, targeting overrides,
  the budget with its floor, and the Meta create before the local insert.
- **Posts** (`posts.dfy`).
  - `processPost`: idempotent, inserts a PENDING row, runs the steps, and becomes
    ACTIVE only at the end.
  - `pausePost` and `activatePost`.
- **Scheduler** (`scheduler.dfy`). The daily expiry sweep, specified by a fold
  `Sweep` with per-post fault isolation.
- **Tracking links** (`tracking_link.dfy`). Building, Meta variant, parsing (with the
  leftmost, greedy regular-expression matches) and validation.
- **Webhook** (`webhook.dfy`). The secret check, payload extraction and the early
  exits before `processPost`.
- **Restaurants** (`restaurants.dfy`). `generateSlug`, `create` and `retryCampaign`.
- **Restaurant code** (`restaurant_code.dfy`). The admin page's `generateCode`.

Parameters stand in for external inputs:
- **Classifier:** the model's reply (`LlmReply`).
- **Clock:** today, today + 30 days and today + 60 days as `YYYY-MM-DD` strings, plus
  the `DDMMYY` stamp of the ad name.
- **Scheduler:** whether its fetch failed.

Store writes do not fail. Strings are `seq<char>`, ids are `nat`, and a JSON object
of priorities is its ordered list of entries.

Where the code and its surrounding description differ, the model follows the code.
`restaurants.service.ts:50` and `:83` call `createCampaign(restaurant.rid, slug)`,
but `meta-api.service.ts:65` declares a single `restaurantName` parameter. The
campaign is therefore created under the restaurant's numeric id rendered in decimal
(`Restaurants.CampaignName`), and the slug is not sent.

## Model

| member | source | states |
|---|---|---|
| Common.OrNull | packages/api/src/services/tracking-link.service.ts:167-174 | `x \|\| undefined`: present exactly when the value is a non-empty string, and then that value |
| Common.NatToString | packages/api/src/modules/ad-sets/ad-sets.service.ts:103 | `toString()` of a natural is a non-empty digit string without a leading zero (except for 0) |
| Common.DecimalRoundTrip | packages/api/src/modules/ad-sets/ad-sets.service.ts:103 | the decimal rendering of a natural reads back as that natural |
| Common.PadStart | packages/api/src/modules/ad-sets/ad-sets.service.ts:103 | `padStart`: length max(width, \|s\|), s kept as the suffix, pad characters before it |
| Common.PadStartValue | packages/api/src/modules/ad-sets/ad-sets.service.ts:103 | zero-padding a digit string keeps its numeric value |
| Common.LeadingZeroValue | packages/api/src/modules/ad-sets/ad-sets.service.ts:103 | one leading '0' does not change a digit string's value |
| Common.LastChars | packages/api/src/modules/posts/posts.service.ts:97 | `slice(-n)`: the last min(n, \|s\|) characters, s being the rest followed by them |
| Common.ReplaceChar | packages/api/src/modules/posts/posts.service.ts:76 | `replace(/-/g, ' ')`: same length, every '-' replaced and every other character kept |
| Common.LexLessIrreflexive | packages/api/src/services/llm.service.ts:118 | JavaScript string `<` is irreflexive |
| Common.LexLessTransitive | packages/api/src/services/llm.service.ts:118-124 | JavaScript string `<` is transitive |
| Common.LexLessAsymmetric | packages/api/src/services/llm.service.ts:118-124 | JavaScript string `<` is asymmetric |
| Common.LexLessTotal | packages/api/src/services/llm.service.ts:118-124 | two different strings are ordered one way or the other |
| Common.NotGreaterIsLessEq | packages/api/src/services/llm.service.ts:118-124 | a date not after another is at most it |
| Common.LexLessEqTransitive | packages/api/src/services/llm.service.ts:118-124 | `<=` on date strings is transitive |
| Common.Filter | packages/api/src/services/supabase.service.ts:272-281 | a filter keeps exactly the rows satisfying the predicate |
| Common.FilterAppend | packages/api/src/services/supabase.service.ts:272-281 | the filter keeps table order: a row appended to the table comes last in the filter exactly when it is selected |
| Common.FilterCounts | packages/api/src/services/supabase.service.ts:272-281 | the filter holds each selected row as many times as the table does, and no unselected row |
| Common.PatchWhere | packages/api/src/services/supabase.service.ts:261-270 | `.update(..).eq(..)`: same length, matching rows rewritten, others kept |
| Common.FilterAtMostOne | packages/api/src/services/supabase.service.ts:92-100 | when at most one row matches, the filter has at most one row, and one when a row matches |
| Common.FilterNone | packages/api/src/services/supabase.service.ts:92-100 | when no row matches, the filter is empty |
| Common.FilterUnique | packages/api/src/services/supabase.service.ts:241-249 | for a key unique among rows, the filter is empty exactly when no row has it |
| Common.Single | packages/api/src/services/supabase.service.ts:97-99 | `.single()`: a row exactly when one row matches, otherwise null (PGRST116) |
| Store.Patched | packages/api/src/services/supabase.service.ts:261-270 | an update keeps id, restaurant, Meta post id and content, and sets exactly the given status and ad id |
| Store.StatusPatchOnlyStatus | packages/api/src/services/supabase.service.ts:261-270 | a `{ status }` update changes the status and nothing else |
| Store.SelectAdSet | packages/api/src/services/supabase.service.ts:183-200 | the usable ad set of the highest version, and null exactly when none is usable |
| Store.SelectStrictMaximum | packages/api/src/services/supabase.service.ts:190-200 | a usable ad set above every other usable version is the one selected |
| Store.MaxVersion | packages/api/src/services/supabase.service.ts:218-228 | an upper bound of the versions of a restaurant and category, attained unless it is 0 |
| Store.ExpiredPosts | packages/api/src/services/supabase.service.ts:272-281 | exactly the ACTIVE posts whose end date is on or before today |
| Store.AppendEmptyAdSet | packages/api/src/modules/ad-sets/ad-sets.service.ts:137-146 | inserting an ad set with no ads changes no row and keeps every ad set within capacity |
| Store.GrowsByEmptyTransitive | packages/api/src/modules/posts/posts.service.ts:59-87 | two steps that only add empty ad sets together only add empty ad sets |
| Store.OnlyRowWithId | packages/api/src/services/supabase.service.ts:213-216 | with distinct ids, a row is the only one in its table carrying its id |
| Store.IdsDistinctCons | packages/api/src/services/supabase.service.ts:213-216 | a table with a row in front has distinct ids exactly when the rest has and no other row carries that row's id |
| Store.FreshIdAppended | packages/api/src/services/supabase.service.ts:251-259 | an insert under the counter's id keeps ids distinct and below the advanced counter |
| Store.PatchPosts | packages/api/src/services/supabase.service.ts:261-270 | the post with that id is patched, every other post kept, the order kept |
| Store.SetStatus | packages/api/src/services/supabase.service.ts:261-270 | the post with that id takes the status, every other post is kept |
| Store.SingleById | packages/api/src/services/supabase.service.ts:261-268 | with distinct ids: the row with that id, or PostgREST's error exactly when there is none |
| Store.PatchKeepsInvariants | packages/api/src/services/supabase.service.ts:261-270 | an update keeps ids and unique Meta post ids, and keeps "no ACTIVE post without an ad" for a patch that cannot break it |
| Store.Database.constructor | packages/api/src/services/supabase.service.ts:72-80 | a store holding the given restaurants and categories, no other rows, all invariants holding |
| Store.Database.RestaurantById | packages/api/src/services/supabase.service.ts:92-100 | `getRestaurant`: the row with that id, null exactly when there is none |
| Store.Database.RestaurantByOwnId | packages/api/src/services/supabase.service.ts:92-100 | `getRestaurant` on the id of a stored restaurant returns that very row |
| Store.Database.RestaurantByPageId | packages/api/src/services/supabase.service.ts:102-110 | a returned restaurant has that page; null when no restaurant has it |
| Store.Database.CategoryByCode | packages/api/src/services/supabase.service.ts:143-151 | a returned category has that code; null for an unknown code |
| Store.Database.AdSetForCategory | packages/api/src/services/supabase.service.ts:175-201 | null for an unknown category; a returned ad set has the restaurant and category, is ACTIVE, has room and the given event identifier or null |
| Store.Database.NextAdSetVersion | packages/api/src/services/supabase.service.ts:218-228 | one above every version of that restaurant and category, whatever the status; 1 when there is none |
| Store.Database.PostByMetaId | packages/api/src/services/supabase.service.ts:241-249 | a returned post has that Meta post id; with unique ids, null exactly when no post has it |
| Store.Database.ExpiredPostsAsOf | packages/api/src/services/supabase.service.ts:272-281 | `getExpiredPosts`: exactly the ACTIVE posts ending on or before today |
| Store.Database.EventFor | packages/api/src/services/supabase.service.ts:284-293 | a returned event has the restaurant and identifier; with unique keys, null exactly when none does |
| Store.Database.CreateRestaurant | packages/api/src/services/supabase.service.ts:112-120 | appends the row under a fresh id |
| Store.Database.UpdateRestaurant | packages/api/src/services/supabase.service.ts:122-131 | rewrites only the row with that id; fails exactly when there is none |
| Store.Database.CreateAdSet | packages/api/src/services/supabase.service.ts:203-211 | appends the row under an id no other ad set has |
| Store.WithOneMoreAd | packages/api/src/services/supabase.service.ts:213-216 | same length; the row with that id counts one more ad, every other row is kept, index by index |
| Store.Database.IncrementAdSetCount | packages/api/src/services/supabase.service.ts:213-216 | the table becomes `WithOneMoreAd` of the old one (that ad set only); capacity and distinct versions are kept when the ad set had room |
| Store.Database.CreatePost | packages/api/src/services/supabase.service.ts:251-259 | appends under a fresh id; keeps unique Meta post ids for a new id and "ACTIVE has an ad" for a non-ACTIVE row |
| Store.Database.UpdatePost | packages/api/src/services/supabase.service.ts:261-270 | patches only the post with that id and returns it; fails exactly when there is none; keeps the post invariants |
| Store.Database.CreateEvent | packages/api/src/services/supabase.service.ts:295-303 | appends under a fresh id; keeps events unique per restaurant and identifier for a new key |
| MetaApi.NumberOr | packages/api/src/services/meta-api.service.ts:199-200 | `n \|\| d`: d for an absent or zero value, the value otherwise |
| MetaApi.BuildTargeting | packages/api/src/services/meta-api.service.ts:180-211 | one kilometre location, ages or 18/65, fixed platforms and positions, interests present exactly when non-empty |
| MetaApi.WithAccessToken | packages/api/src/services/meta-api.service.ts:42 | the URL, then '&' when it has a '?' and '?' otherwise, then `access_token=` and the token |
| MetaApi.RequestOutcome | packages/api/src/services/meta-api.service.ts:57-62 | fails exactly when the body has an error, with `Meta API Error: ` and its message |
| MetaApi.CreatedId | packages/api/src/services/meta-api.service.ts:102-104 | the id exactly when the request succeeded with a non-empty id; otherwise the request's error or `Failed to create ...` |
| MetaApi.CampaignIdOrNull | packages/api/src/services/meta-api.service.ts:65-82 | `createCampaign` is null exactly when the request failed or gave no id |
| MetaApi.BudgetCents | packages/api/src/services/meta-api.service.ts:95 | the daily budget in cents: a multiple of 100 that divides back to the budget |
| MetaApi.LogExtendsTransitive | packages/api/src/services/meta-api.service.ts:37-63 | requests are only ever appended to the log |
| MetaApi.MetaClient.constructor | packages/api/src/services/meta-api.service.ts:31-35 | a client with no requests sent and the given replies pending |
| MetaApi.MetaClient.Send | packages/api/src/services/meta-api.service.ts:37-63 | one request: takes the next reply and logs the request with it |
| MetaApi.MetaClient.CreateCampaign | packages/api/src/services/meta-api.service.ts:65-82 | one campaign request; never fails, null on any failure |
| MetaApi.MetaClient.CreateAdSet | packages/api/src/services/meta-api.service.ts:84-105 | one ad-set request with the budget in cents; the new id or the error |
| MetaApi.MetaClient.CreateCreative | packages/api/src/services/meta-api.service.ts:107-137 | one creative request promoting `{pageId}_{postId}`; the new id or the error |
| MetaApi.MetaClient.CreateAd | packages/api/src/services/meta-api.service.ts:139-155 | one ad request; the new id or the error |
| MetaApi.MetaClient.UpdateAdStatus | packages/api/src/services/meta-api.service.ts:157-161 | one status request; fails exactly when the reply carries an error |
| Classifier.ClampEndDate | packages/api/src/services/llm.service.ts:117-125 | a present end date after both clamps is at most the event date (when truthy) and today+60, never later than given, one of the three, and unchanged when already within both |
| Classifier.Categorize | packages/api/src/services/llm.service.ts:109-140 | never fails; category whitelisted or INFO; event date and identifier passed on; a missing or null end date stays missing (both comparisons are false), a present one is clamped as `ClampEndDate` states; fallback INFO/null/null/today+30 |
| Classifier.CategorizePost | packages/api/src/services/llm.service.ts:109-140 | the field-by-field corrections, in the source's order, give exactly `Categorize` |
| AdSets.OverridesFor | packages/api/src/modules/ad-sets/ad-sets.service.ts:112 | the table's overrides for a listed category, none otherwise |
| AdSets.BaseRadiusKm | packages/api/src/modules/ad-sets/ad-sets.service.ts:152-159 | S-CITY 5, M-CITY 10, L-CITY 15, anything else 10 |
| AdSets.RadiusKm | packages/api/src/modules/ad-sets/ad-sets.service.ts:107-110 | the delivery radius for delivery categories, otherwise the city-size radius (5 to 15) |
| AdSets.DefaultTargeting | packages/api/src/modules/ad-sets/ad-sets.service.ts:11-43 | a category outside the table gets ages 18-65 and no interests |
| AdSets.VersionLabel | packages/api/src/modules/ad-sets/ad-sets.service.ts:103 | at least two digits, reading back as the version |
| AdSets.AdSetNameInjective | packages/api/src/modules/ad-sets/ad-sets.service.ts:102-104 | two versions of a restaurant and category never get the same name |
| AdSets.PriorityEntry | packages/api/src/modules/ad-sets/ad-sets.service.ts:124 | the value stored under the key, absent exactly when no entry has it |
| AdSets.CategoryPriority | packages/api/src/modules/ad-sets/ad-sets.service.ts:124 | `priorities[parent] \|\| 10` is always positive |
| AdSets.TotalPriority | packages/api/src/modules/ad-sets/ad-sets.service.ts:125 | the sum of the priorities starting from 100 is at least 100 |
| AdSets.EntryWithinTotal | packages/api/src/modules/ad-sets/ad-sets.service.ts:124-125 | every stored priority plus 100 is at most the total |
| AdSets.RoundHalfUp | packages/api/src/modules/ad-sets/ad-sets.service.ts:126 | `Math.round(num / den)`: the nearest integer, halves rounded up |
| AdSets.MetaDailyBudgetBounds | packages/api/src/modules/ad-sets/ad-sets.service.ts:123-133 | the budget sent to Meta is between the floor of 5 and the base of 50 |
| AdSets.ShareWithinBase | packages/api/src/modules/ad-sets/ad-sets.service.ts:126 | a rounded share of at most the whole of the base budget is at most the base budget |
| AdSets.CreateAdSet | packages/api/src/modules/ad-sets/ad-sets.service.ts:87-150 | unknown category and missing campaign fail before any Meta call; the row (no ads, ACTIVE, next version, name) is inserted only after Meta gave an id, and is then found by the lookup |
| AdSets.InsertAdSet | packages/api/src/modules/ad-sets/ad-sets.service.ts:137-146 | the inserted row of the next version is what the lookup now returns; versions stay distinct |
| AdSets.NewRowIsSelected | packages/api/src/services/supabase.service.ts:190-200 | a usable row of the next version is selected over all others |
| AdSets.NextVersionKeepsDistinct | packages/api/src/services/supabase.service.ts:218-228 | adding the next version keeps versions distinct per restaurant and category |
| AdSets.GetOrCreateAdSet | packages/api/src/modules/ad-sets/ad-sets.service.ts:66-85 | a usable ad set is returned with no Meta call or insert; otherwise one new empty row; the result has room and is found again by the lookup |
| Posts.TwoDigits | packages/api/src/modules/posts/posts.service.ts:99 | `padStart(2, '0')`: two digits for n below 100, reading back as n |
| Posts.NatToStringEnds | packages/api/src/modules/posts/posts.service.ts:99 | a number of two or more digits ends in its tens and units digits |
| Posts.LastTwoDigits | packages/api/src/modules/posts/posts.service.ts:99 | `slice(-2)` of a year's digits denotes the year modulo 100 |
| Posts.DateStamp | packages/api/src/modules/posts/posts.service.ts:98-99 | six digits: day, month and year modulo 100 |
| Posts.AdName | packages/api/src/modules/posts/posts.service.ts:97-100 | ad-set name, '_', the last (up to) six characters of the post id, '_', the stamp |
| Posts.EventIdentifier | packages/api/src/modules/posts/posts.service.ts:52-56 | an identifier exactly when the category starts with `EV_` and one was given |
| Posts.PromotionPatch | packages/api/src/modules/posts/posts.service.ts:112-120 | the final update of a post with a non-empty ad id cannot leave it ACTIVE without an ad |
| Posts.RecordEvent | packages/api/src/modules/posts/posts.service.ts:54-79 | an event is added only for an `EV_` category with an identifier, when none exists and a date is given, named with spaces for hyphens, on the ad set the lookup selects for its category and identifier afterwards; otherwise nothing changes and Meta is not called; a failure leaves the events as they were |
| Posts.RecordNewEvent | packages/api/src/modules/posts/posts.service.ts:63-78 | with no event stored and a date given: the ad set is found or created and exactly one event is appended on the ad set the lookup then selects; a failure leaves the events as they were |
| Posts.CreateAdInMeta | packages/api/src/modules/posts/posts.service.ts:89-106 | the creative request, then the ad request in the resolved ad set with the ad name; both ids non-empty |
| Posts.RecordAd | packages/api/src/modules/posts/posts.service.ts:108-120 | the ad-set table becomes `WithOneMoreAd` for that ad set, and the post table is patched at that post with every promotion field and ACTIVE, every other post kept |
| Posts.PlaceAd | packages/api/src/modules/posts/posts.service.ts:89-120 | exactly two Meta requests (`PlacedAd`): the creative for `{page}_{postId}`, then the ad in this ad set's Meta ad set named `AdName(adSet.name, postId, stamp)`; the post is patched with the ad set and the creative and ad ids Meta answered, and the ad set alone counts one more ad; on failure neither table changes |
| Posts.ResolveAdSet | packages/api/src/modules/posts/posts.service.ts:51-87 | on success the answered ad set is the one `AdSetForCategory` selects for the category and event identifier, and the events change exactly as `EventStep` says, a new event sitting on that same ad set; on failure the events are as they were |
| Posts.Promote | packages/api/src/modules/posts/posts.service.ts:46-123 | on success the post is patched with the classification, the ad set and the creative and ad ids Meta answered; that ad set is the lookup's choice in the table the event and ad-set steps left, the last two requests created the creative and the ad in its Meta ad set under `AdName` (`PlacedAd`), and it alone counts one more ad; events change only by the event step; on failure no post and no existing ad set changed, and the events are as they were or changed by the event step alone |
| Posts.ProcessPost | packages/api/src/modules/posts/posts.service.ts:22-134 | an existing Meta post id is answered with no call and no write; otherwise one row is appended: on failure the PENDING row as inserted; on success that row patched with `Categorize`'s category and dates and the ad set the lookup selects, which alone counts one more ad; the last two requests created the creative for the post and the ad in that ad set's Meta ad set under `AdName`, and the row carries the ids Meta answered (`PlacedAd`); on success and on failure the events are as they were or changed by the event step alone; the store invariants hold |
| Posts.SetPostStatus | packages/api/src/modules/posts/posts.service.ts:136-160 | unknown id fails; Meta is called only when the post has an ad, and a failure there changes nothing; then the status is set whatever it was |
| Posts.PausePost | packages/api/src/modules/posts/posts.service.ts:136-147 | `pausePost`: the post becomes PAUSED and every invariant of the store is kept |
| Posts.ActivatePost | packages/api/src/modules/posts/posts.service.ts:149-160 | `activatePost` as written: the post becomes ACTIVE keeping whatever ad id it had, possibly none |
| Posts.ActivateWithoutAdBreaksInvariant | packages/api/src/modules/posts/posts.service.ts:149-160 | activating a PENDING post without an ad breaks "no ACTIVE post without an ad" |
| Posts.ActivatePostChecked | packages/api/src/modules/posts/posts.service.ts:149-160 | a post without an ad is refused; otherwise ACTIVE with its ad, and every invariant of the store is kept |
| Scheduler.ExpireOne | packages/api/src/modules/scheduler/scheduler.service.ts:44-60 | one iteration counts its post exactly once, as a success or as a failure |
| Scheduler.MarkExpired | packages/api/src/modules/scheduler/scheduler.service.ts:51 | the status updates keep every row's id and the table's length |
| Scheduler.SweepCounts | packages/api/src/modules/scheduler/scheduler.service.ts:39-61 | success + failed = total, one error entry per failure, one expired post per success |
| Scheduler.SweepCalls | packages/api/src/modules/scheduler/scheduler.service.ts:44-48 | exactly one pause request per post with an ad, whatever failed before it |
| Scheduler.SweepExpiresGiven | packages/api/src/modules/scheduler/scheduler.service.ts:43-52 | only posts that were fetched are expired |
| Scheduler.ExpireOneExpired | packages/api/src/modules/scheduler/scheduler.service.ts:46-52 | a post is expired exactly when it has no ad or its pause succeeded |
| Scheduler.SweepLast | packages/api/src/modules/scheduler/scheduler.service.ts:44-60 | the last post's outcome depends on its own reply only |
| Scheduler.SweepEarlier | packages/api/src/modules/scheduler/scheduler.service.ts:44-60 | handling a later post does not change an earlier post's outcome |
| Scheduler.SweepIsolation | packages/api/src/modules/scheduler/scheduler.service.ts:43-61 | every post is expired exactly when it has no ad or the pause of its own ad succeeded |
| Scheduler.SweepStep | packages/api/src/modules/scheduler/scheduler.service.ts:43 | the loop over one more post is one more iteration |
| Scheduler.MarkExpiredRows | packages/api/src/modules/scheduler/scheduler.service.ts:51 | exactly the rows with expired ids change, and only in status |
| Scheduler.FilteredIdsDistinct | packages/api/src/services/supabase.service.ts:272-281 | the rows a query returns have distinct ids |
| Scheduler.ExpiredPostsDistinct | packages/api/src/services/supabase.service.ts:272-281 | the fetched expired posts have distinct ids |
| Scheduler.ExpiredOnlyAfterPause | packages/api/src/modules/scheduler/scheduler.service.ts:46-52 | a row is marked EXPIRED only if it was fetched and had no ad or its pause succeeded |
| Scheduler.MarkExpiredStep | packages/api/src/modules/scheduler/scheduler.service.ts:51 | marking one more id is one more status update |
| Scheduler.ExpirePost | packages/api/src/modules/scheduler/scheduler.service.ts:44-60 | one loop body does exactly what `ExpireOne` describes to the store and the Meta log |
| Scheduler.SweepPosts | packages/api/src/modules/scheduler/scheduler.service.ts:39-61 | the loop's counters, Meta requests and status updates are those of `Sweep` |
| Scheduler.ExpirePosts | packages/api/src/modules/scheduler/scheduler.service.ts:29-72 | never fails; a failed fetch gives total 0 and one `Job error` entry; otherwise the result is the sweep over the expired posts |
| TrackingLink.RemoveKey | packages/api/src/services/tracking-link.service.ts:65-71 | the key is gone and every other key keeps its value and count |
| TrackingLink.SetParam | packages/api/src/services/tracking-link.service.ts:65-71 | `searchParams.set`: the key holds the value exactly once; other keys unchanged |
| TrackingLink.IntToString | packages/api/src/services/tracking-link.service.ts:56-57 | `String(n)` is the decimal rendering for a non-negative n |
| TrackingLink.Medium | packages/api/src/services/tracking-link.service.ts:28-34 | the platform's medium for 1 to 5, `unknown` otherwise |
| TrackingLink.LinkComponents | packages/api/src/services/tracking-link.service.ts:55-62 | source `mysite`, the platform's medium, a campaign starting with `pk`, non-empty content |
| TrackingLink.TrackingKeysDistinct | packages/api/src/services/tracking-link.service.ts:66-71 | the six keys set are pairwise different |
| TrackingLink.TrackingQueryGets | packages/api/src/services/tracking-link.service.ts:65-71 | each of the six keys reads back its component |
| TrackingLink.TrackingQueryCounts | packages/api/src/services/tracking-link.service.ts:65-71 | each of the six keys occurs exactly once |
| TrackingLink.TrackingQueryKeeps | packages/api/src/services/tracking-link.service.ts:65-71 | every other parameter of the destination is kept |
| TrackingLink.TrackingQueryCarries | packages/api/src/services/tracking-link.service.ts:65-71 | the query carries the components and keeps the other parameters |
| TrackingLink.GenerateTrackingLink | packages/api/src/services/tracking-link.service.ts:48-77 | an unparseable destination fails; otherwise the link keeps base and hash and has exactly the six parameters set and every other parameter kept |
| TrackingLink.GenerateMetaTrackingLink | packages/api/src/services/tracking-link.service.ts:83-89 | the link for platform 1 and the `{{ad.id}}` macro, medium `meta` |
| TrackingLink.Run | packages/api/src/services/tracking-link.service.ts:157-159 | a greedy match: the longest prefix within the character class |
| TrackingLink.Search | packages/api/src/services/tracking-link.service.ts:157-159 | a capture group, when found, is non-empty |
| TrackingLink.ParseCompound | packages/api/src/services/tracking-link.service.ts:156-164 | no fields for an empty or missing `c`, otherwise the three searches |
| TrackingLink.ParseTrackingUrl | packages/api/src/services/tracking-link.service.ts:136-180 | null exactly for an unparseable URL; each field the non-empty parameter or the `c` match |
| TrackingLink.SearchSkips | packages/api/src/services/tracking-link.service.ts:157-159 | text without '.' cannot hold a match of a dotted tag |
| TrackingLink.RunWhole | packages/api/src/services/tracking-link.service.ts:157-159 | a greedy match stops exactly at the first character outside the class |
| TrackingLink.SearchHere | packages/api/src/services/tracking-link.service.ts:157-159 | a tag followed by class characters captures exactly those characters |
| TrackingLink.SearchPasses | packages/api/src/services/tracking-link.service.ts:157-159 | a different tag at the start is skipped by one position |
| TrackingLink.DigitsHaveNoDot | packages/api/src/services/tracking-link.service.ts:57 | a decimal number contains no '.' and only digits |
| TrackingLink.CompoundTags | packages/api/src/services/tracking-link.service.ts:157-159 | `.pi`, `.pk` and `.ps` are distinct dotted tags |
| TrackingLink.SearchPastTag | packages/api/src/services/tracking-link.service.ts:157-159 | the search passes over another tag and its dot-free value |
| TrackingLink.CompoundFirst | packages/api/src/services/tracking-link.service.ts:157 | the first value is found by its tag |
| TrackingLink.CompoundSecond | packages/api/src/services/tracking-link.service.ts:158 | the second value is found past the first |
| TrackingLink.CompoundThird | packages/api/src/services/tracking-link.service.ts:159 | the third value is found past the first two |
| TrackingLink.CParamRoundTrip | packages/api/src/services/tracking-link.service.ts:57 | `.pi{pi}.pk{pk}.ps{ps}` parses back to pi and pk, and to ps when ps is non-empty without '.' |
| TrackingLink.GeneratedLinkParses | packages/api/src/services/tracking-link.service.ts:48-77 | parsing a generated link recovers rid, pi, pk, the utm fields, and ps when non-empty without '.' |
| TrackingLink.MacroShape | packages/api/src/services/tracking-link.service.ts:87 | the macro is `{{ad` followed by `.id}}` |
| TrackingLink.MetaCParamShape | packages/api/src/services/tracking-link.service.ts:83-89 | the Meta link's `c` is `.pi1.pk{pk}.ps{{ad.id}}` |
| TrackingLink.MetaMacroParsesTruncated | packages/api/src/services/tracking-link.service.ts:159 | the Meta link's ps parses back as `{{ad`, not as the macro |
| TrackingLink.MissingMessages | packages/api/src/services/tracking-link.service.ts:193-199 | at most one message per checked field |
| TrackingLink.ValidateTrackingUrl | packages/api/src/services/tracking-link.service.ts:185-205 | `Invalid URL format` for an unparseable URL; otherwise the messages of the missing fields in order; valid exactly when there are none |
| TrackingLink.MissingMessagesExact | packages/api/src/services/tracking-link.service.ts:193-199 | a field's message is listed exactly when that field is missing |
| TrackingLink.NoMessagesIffComplete | packages/api/src/services/tracking-link.service.ts:201-203 | no messages exactly when all seven fields are present |
| TrackingLink.ContentNeverChecked | packages/api/src/services/tracking-link.service.ts:193-199 | `utm_content` never influences validation |
| TrackingLink.GeneratedLinkValidates | packages/api/src/services/tracking-link.service.ts:185-205 | a generated link with a dot-free non-empty ps validates |
| Webhook.ValidateWebhook | packages/api/src/modules/webhook/webhook.service.ts:37-41 | rejects exactly when a secret is configured and the given one differs; accepts all with none configured |
| Webhook.FindSocial | packages/api/src/modules/webhook/webhook.service.ts:47-49 | the first Facebook or Instagram entry, none exactly when there is no such entry |
| Webhook.PostIdOf | packages/api/src/modules/webhook/webhook.service.ts:47-56 | a post id, when found, is non-empty |
| Webhook.ContentOf | packages/api/src/modules/webhook/webhook.service.ts:57 | the post text, or "" when absent or empty |
| Webhook.PageIdOf | packages/api/src/modules/webhook/webhook.service.ts:61-65 | refId when non-empty, else profile; absent exactly when both are |
| Webhook.Extract | packages/api/src/modules/webhook/webhook.service.ts:46-65 | `No valid post ID found`, then `No page identifier found`; otherwise non-empty post and page ids and the content |
| Webhook.FirstSocialEntryDecides | packages/api/src/modules/webhook/webhook.service.ts:47-54 | an empty id on the first social entry rejects the payload even when a later one has an id |
| Webhook.HandleAyrshareWebhook | packages/api/src/modules/webhook/webhook.service.ts:43-86 | early exits write nothing and call nothing; a post already stored under that id is a success with no write and no call; otherwise exactly one row is appended, for the restaurant the page lookup found, with the extracted post id and content, ACTIVE exactly when the reply is a success; a processing failure becomes an unsuccessful reply |
| Restaurants.LowerChar | packages/api/src/modules/restaurants/restaurants.service.ts:93 | ASCII capitals lowered, other characters outside the Polish capitals kept |
| Restaurants.FoldDiacritic | packages/api/src/modules/restaurants/restaurants.service.ts:94-101 | slug characters and '-' are kept |
| Restaurants.Normalize | packages/api/src/modules/restaurants/restaurants.service.ts:93-101 | same length, each character lowered and then folded |
| Restaurants.DropRun | packages/api/src/modules/restaurants/restaurants.service.ts:102 | drops a leading run of non-slug characters, keeping the letters |
| Restaurants.Collapse | packages/api/src/modules/restaurants/restaurants.service.ts:102 | empty exactly for empty input; starts with the first character or '-' |
| Restaurants.Trim | packages/api/src/modules/restaurants/restaurants.service.ts:103 | removing the edge hyphens never lengthens |
| Restaurants.LettersAppend | packages/api/src/modules/restaurants/restaurants.service.ts:102 | the slug characters of a concatenation are those of its parts |
| Restaurants.PrependShape | packages/api/src/modules/restaurants/restaurants.service.ts:102 | a slug character, or a '-' before a non-hyphen, keeps the slug shape |
| Restaurants.CollapseShape | packages/api/src/modules/restaurants/restaurants.service.ts:102 | after collapsing: only a-z, 0-9 and '-', no "--", the letters kept |
| Restaurants.TrimShape | packages/api/src/modules/restaurants/restaurants.service.ts:103 | after trimming: no leading or trailing '-' as well |
| Restaurants.GenerateSlugShape | packages/api/src/modules/restaurants/restaurants.service.ts:91-104 | a slug uses only a-z, 0-9 and '-', with no "--" and no '-' at either end, keeping every letter and digit |
| Restaurants.NormalizeSlug | packages/api/src/modules/restaurants/restaurants.service.ts:93-101 | a slug is unchanged by lowering and folding |
| Restaurants.TailShape | packages/api/src/modules/restaurants/restaurants.service.ts:102 | the tail of a slug-shaped string is slug-shaped |
| Restaurants.CollapseSlug | packages/api/src/modules/restaurants/restaurants.service.ts:102 | collapsing a slug changes nothing |
| Restaurants.GenerateSlugIdempotent | packages/api/src/modules/restaurants/restaurants.service.ts:91-104 | the slug of a slug is itself |
| Restaurants.PolishLettersFold | packages/api/src/modules/restaurants/restaurants.service.ts:94-101 | Polish capitals and diacritics map to base letters ("Łódź" gives "lodz") |
| Restaurants.ChosenSlug | packages/api/src/modules/restaurants/restaurants.service.ts:39 | the given slug when non-empty, otherwise the generated one, which is a slug |
| Restaurants.Create | packages/api/src/modules/restaurants/restaurants.service.ts:37-60 | appends the row with the chosen slug; a campaign is requested only when none was given, and its id or null is stored |
| Restaurants.Retried | packages/api/src/modules/restaurants/restaurants.service.ts:77-85 | the slug is kept or becomes a slug; a created campaign leaves the row with a campaign id |
| Restaurants.RetryCampaign | packages/api/src/modules/restaurants/restaurants.service.ts:71-86 | unknown id fails; an existing campaign returns the row unchanged with no Meta call; otherwise one campaign request, and the row with that id becomes `Retried` (slug filled only when missing, campaign id or null) while every other restaurant is kept, index by index |
| Restaurants.StoreMissingSlug | packages/api/src/modules/restaurants/restaurants.service.ts:76-79 | a restaurant without a slug gets the generated one stored, one with a slug keeps it; every other row kept index by index, and the lookup by id finds the new row |
| Restaurants.CreateMissingCampaign | packages/api/src/modules/restaurants/restaurants.service.ts:76-85 | one campaign request named after the restaurant; the answer is `Retried` and the row with that id becomes it, every other row kept |
| RestaurantCode.AsciiLetters | packages/app/src/pages/Restaurants.tsx:8 | only ASCII letters remain |
| RestaurantCode.UpperChar | packages/app/src/pages/Restaurants.tsx:10 | `toUpperCase` of a letter is a capital, a capital is kept |
| RestaurantCode.Upper | packages/app/src/pages/Restaurants.tsx:10 | each letter upper-cased in place |
| RestaurantCode.GenerateCode | packages/app/src/pages/Restaurants.tsx:6-11 | 1 to 3 capitals; `XXX` without letters; otherwise the first min(3, n) letters upper-cased |
| RestaurantCode.AsciiLettersAppend | packages/app/src/pages/Restaurants.tsx:8 | the letters of a concatenation are those of its parts |
| RestaurantCode.NonLettersIgnored | packages/app/src/pages/Restaurants.tsx:8 | inserting a non-letter anywhere does not change the code |
| RestaurantCode.UpperLettersKept | packages/app/src/pages/Restaurants.tsx:8-10 | a string of capitals is its own letters |
| RestaurantCode.GenerateCodeIdempotent | packages/app/src/pages/Restaurants.tsx:6-11 | the code of a code is itself |

## Left out

- HTTP is not modelled: `fetch`, JSON encoding and decoding, and the NestJS controllers, modules and wiring. Meta's replies are a queue of `Response` values. An exhausted queue gives a transport failure. The text a thrown `fetch` error renders to is not modelled.
- The LLM request, the prompt, the regular-expression extraction of the JSON object and `JSON.parse` (`llm.service.ts:59-109`) are not modelled: their outcome is the `LlmReply` parameter.
- The clock (`new Date()`, `setDate`, `toISOString`) is not modelled: today, today + 30, today + 60 and the `DDMMYY` stamp are parameters.
- `URL` and `URLSearchParams` text handling is not modelled: parsing, serialisation and percent-encoding. A URL is a base, an ordered list of parameters and a hash. Whether a destination parses is part of the input (`UrlText`). `Href` is a plain concatenation.
- Restaurants.LowerChar: only ASCII and the Polish capitals are lowered, not every Unicode capital that `toLowerCase` handles.
- Store.Database.RestaurantByPageId: does not state that a page shared by exactly one restaurant is found, or that a shared page gives null.
- Store.Database.CategoryByCode: does not state that a code held by exactly one category is found, or that a shared code gives null.
- Classifier.Categorize: an end date that is missing and one that is null are both `None`, and the model's post update writes null for either. For a missing field the client leaves the column as it was instead; a fresh PENDING row already holds null there, so the stored row is the same. An end date of another JSON type (a number, say) is not represented.
- Store writes never fail. The body of the `increment_ad_set_count` RPC is not shown, so it is modelled as adding one ad.
- Row ids are natural numbers from a counter, not UUIDs. A restaurant's `rid` is taken as given.
- Concurrency is not modelled: no races between webhooks on versions or `ads_count`. The `@Cron` trigger is not modelled either.
- Latitude and longitude are opaque reals copied into the targeting.
- Budget priorities are natural numbers. Negative and fractional priorities are not modelled.
- `getAudienceEstimate` and `updateAdSetStatus` are outside the pipeline. So are the list queries (`getRestaurants`, `getAdSets`, `getPosts`, `getAdSetCategories`), `updateAdSetCategory`, and the controller passthroughs `update` and `delete`.
- `createAndSaveTrackingLink`, `getTrackingLinks` and `getPlatforms` are not modelled: their store functions are not defined in `supabase.service.ts`.
- The opportunities service is not part of this model.
- The `ayrshare_payload` column of a post is not modelled: nothing in the pipeline reads it back.
- A key of `CATEGORY_TARGETING` is looked up as a map key only; keys inherited from JavaScript's object prototype are not modelled.
- TrackingLink.GeneratedLinkParses: covers non-negative `rid`, `pi` and `pk` only. A negative number's '-' is not matched by the `\d+` pattern, so those fields would not parse back.
- Webhook.HandleAyrshareWebhook: the failure message is `Processing failed: Error: ` followed by the model's error text. The exact text of errors thrown by the store client is not modelled.

## Findings

| source | as written | input that shows it | evidently intended | confidence | as-written member | corrected member |
|---|---|---|---|---|---|---|
| packages/api/src/modules/posts/posts.service.ts:149-160 | `activatePost` sets ACTIVE even when the post has no `meta_ad_id` | a post left PENDING by a failed `processPost` (no ad), then `activatePost` on its Meta post id | only a post whose ad exists can be ACTIVE, as `processPost` and `getExpiredPosts` assume | not executed | Posts.ActivatePost, Posts.ActivateWithoutAdBreaksInvariant | Posts.ActivatePostChecked |
