/**
 * The Meta Graph API client (packages/api/src/services/meta-api.service.ts).
 *
 * The HTTP exchange itself is not modelled: a `MetaClient` holds the replies
 * Meta will give, in order, and records every request it sends together with
 * the reply it got. What is modelled is what the service does around each
 * exchange: the access-token suffix of the URL, the error check of `request`,
 * the "no id" checks of the create calls, the cents conversion of the daily
 * budget, `createCampaign` answering null on any failure, and the audience
 * targeting record built by `buildTargeting`.
 */
module MetaApi {
  import opened Common

  // ---------------------------------------------------------------------------
  // Audience targeting
  // ---------------------------------------------------------------------------

  datatype Interest = Interest(id: string, name: string)

  datatype CustomLocation = CustomLocation(latitude: real, longitude: real, radius: int, distance_unit: string)

  datatype FlexibleSpec = FlexibleSpec(interests: seq<Interest>)

  datatype Targeting = Targeting(
    custom_locations: seq<CustomLocation>,
    age_min: int,
    age_max: int,
    publisher_platforms: seq<string>,
    facebook_positions: seq<string>,
    instagram_positions: seq<string>,
    flexible_spec: Option<seq<FlexibleSpec>>)

  const DEFAULT_AGE_MIN: int := 18
  const DEFAULT_AGE_MAX: int := 65
  const PUBLISHER_PLATFORMS: seq<string> := ["facebook", "instagram"]
  const FACEBOOK_POSITIONS: seq<string> := ["feed", "story", "reels"]
  const INSTAGRAM_POSITIONS: seq<string> := ["stream", "story", "reels"]

  /** `n || d` on an optional number: an absent value and 0 both give d. */
  function NumberOr(n: Option<int>, d: int): (r: int)
    ensures n.Some? && n.value != 0 ==> r == n.value
    ensures n.None? || n.value == 0 ==> r == d
  {
    if n.Some? && n.value != 0 then n.value else d
  }

  /**
   * `buildTargeting`: one custom location around the restaurant, in
   * kilometres; the age bounds or their defaults; fixed placements; and the
   * interests, only when there are some.
   */
  function BuildTargeting(lat: real, lng: real, radiusKm: int, ageMin: Option<int>, ageMax: Option<int>,
                          interests: Option<seq<Interest>>): (t: Targeting)
    ensures |t.custom_locations| == 1
    ensures t.custom_locations[0] == CustomLocation(lat, lng, radiusKm, "kilometer")
    ensures t.age_min == (if ageMin.Some? && ageMin.value != 0 then ageMin.value else DEFAULT_AGE_MIN)
    ensures t.age_max == (if ageMax.Some? && ageMax.value != 0 then ageMax.value else DEFAULT_AGE_MAX)
    ensures t.publisher_platforms == PUBLISHER_PLATFORMS
    ensures t.facebook_positions == FACEBOOK_POSITIONS && t.instagram_positions == INSTAGRAM_POSITIONS
    ensures t.flexible_spec.Some? <==> interests.Some? && |interests.value| > 0
    ensures t.flexible_spec.Some? ==> t.flexible_spec.value == [FlexibleSpec(interests.value)]
  {
    Targeting(
      [CustomLocation(lat, lng, radiusKm, "kilometer")],
      NumberOr(ageMin, DEFAULT_AGE_MIN),
      NumberOr(ageMax, DEFAULT_AGE_MAX),
      PUBLISHER_PLATFORMS,
      FACEBOOK_POSITIONS,
      INSTAGRAM_POSITIONS,
      if interests.Some? && |interests.value| > 0 then Some([FlexibleSpec(interests.value)]) else None)
  }

  // ---------------------------------------------------------------------------
  // Requests and responses
  // ---------------------------------------------------------------------------

  /** `${url}${url.includes('?') ? '&' : '?'}access_token=${token}`. */
  function WithAccessToken(url: string, token: string): (r: string)
    ensures |r| > |url| && r[..|url|] == url
    ensures r[|url|] == (if '?' in url then '&' else '?')
    ensures r[|url| + 1..] == "access_token=" + token
    ensures '?' in r
  {
    url + [if '?' in url then '&' else '?'] + "access_token=" + token
  }

  /** The JSON body Meta answers with: the new object's id ("" when absent) and an optional error message. */
  datatype Response = Response(id: string, error: Option<string>)

  /** What a request yields when Meta gives no reply at all (a transport failure). */
  const NO_RESPONSE: Response := Response("", Some("no response"))

  /** `request`: throws when the body carries an error, otherwise hands the body on. */
  function RequestOutcome(resp: Response): (r: Result<Response>)
    ensures r.Err? <==> resp.error.Some?
    ensures r.Ok? ==> r.value == resp
    ensures r.Err? ==> r.error == "Meta API Error: " + resp.error.value
  {
    match resp.error
    case Some(message) => Err("Meta API Error: " + message)
    case None => Ok(resp)
  }

  /** `createAdSet` / `createCreative` / `createAd`: the new id, or an error when the request failed or gave no id. */
  function CreatedId(resp: Response, what: string): (r: Result<string>)
    ensures r.Ok? <==> resp.error.None? && resp.id != ""
    ensures r.Ok? ==> r.value == resp.id
    ensures resp.error.Some? ==> r == Err("Meta API Error: " + resp.error.value)
    ensures resp.error.None? && resp.id == "" ==> r == Err("Failed to create " + what)
  {
    match RequestOutcome(resp)
    case Err(e) => Err(e)
    case Ok(body) => if body.id == "" then Err("Failed to create " + what) else Ok(body.id)
  }

  /** `createCampaign`: every failure, thrown or "no id", is swallowed into null. */
  function CampaignIdOrNull(resp: Response): (r: Option<string>)
    ensures r.None? <==> CreatedId(resp, "campaign").Err?
    ensures r.Some? ==> r.value == resp.id && r.value != ""
  {
    match CreatedId(resp, "campaign")
    case Ok(id) => Some(id)
    case Err(_) => None
  }

  /** The daily budget field of `createAdSet`: whole currency units to cents. */
  function BudgetCents(dailyBudget: int): (cents: int)
    ensures cents % 100 == 0 && cents / 100 == dailyBudget
  {
    dailyBudget * 100
  }

  datatype AdStatus = AdActive | AdPaused

  /** The requests the pipeline sends, with the fields the model keeps. */
  datatype MetaCall =
    | CreateCampaignCall(name: string)
    | CreateAdSetCall(campaign_id: string, name: string, targeting: Targeting, daily_budget: int)
    | CreateCreativeCall(creative_name: string, object_story_id: string, page_id: string)
    | CreateAdCall(adset_id: Option<string>, creative_id: string, ad_name: string)
    | UpdateAdStatusCall(ad_id: string, status: AdStatus)

  /** One request and the reply it received. */
  datatype Exchange = Exchange(call: MetaCall, response: Response)

  /** Requests are only ever appended to the log. */
  ghost predicate LogExtends(before: seq<Exchange>, after: seq<Exchange>) {
    |before| <= |after| && after[..|before|] == before
  }

  lemma LogExtendsTransitive(a: seq<Exchange>, b: seq<Exchange>, c: seq<Exchange>)
    requires LogExtends(a, b) && LogExtends(b, c)
    ensures LogExtends(a, c)
  {
    assert c[..|b|][..|a|] == c[..|a|];
  }

  function Head(rs: seq<Response>): Response {
    if rs == [] then NO_RESPONSE else rs[0]
  }

  function Tail(rs: seq<Response>): seq<Response> {
    if rs == [] then [] else rs[1..]
  }

  class MetaClient {
    /** Every request sent so far, oldest first, with its reply. */
    var log: seq<Exchange>
    /** The replies Meta will give to the next requests, in order. */
    var responses: seq<Response>

    constructor (responses: seq<Response>)
      ensures log == [] && this.responses == responses
    {
      log := [];
      this.responses := responses;
    }

    method Send(call: MetaCall) returns (resp: Response)
      modifies this
      ensures resp == Head(old(responses)) && responses == Tail(old(responses))
      ensures log == old(log) + [Exchange(call, resp)]
    {
      resp := Head(responses);
      responses := Tail(responses);
      log := log + [Exchange(call, resp)];
    }

    /** `createCampaign(name)`: null instead of any error. */
    method CreateCampaign(name: string) returns (id: Option<string>)
      modifies this
      ensures responses == Tail(old(responses))
      ensures log == old(log) + [Exchange(CreateCampaignCall(name), Head(old(responses)))]
      ensures id == CampaignIdOrNull(Head(old(responses)))
    {
      var resp := Send(CreateCampaignCall(name));
      id := CampaignIdOrNull(resp);
    }

    /** `createAdSet`: sends the budget in cents; the new id or the error. */
    method CreateAdSet(campaignId: string, name: string, targeting: Targeting, dailyBudget: int)
      returns (r: Result<string>)
      modifies this
      ensures responses == Tail(old(responses))
      ensures log == old(log) + [Exchange(CreateAdSetCall(campaignId, name, targeting, BudgetCents(dailyBudget)),
                                          Head(old(responses)))]
      ensures r == CreatedId(Head(old(responses)), "ad set")
    {
      var resp := Send(CreateAdSetCall(campaignId, name, targeting, BudgetCents(dailyBudget)));
      r := CreatedId(resp, "ad set");
    }

    /** `createCreative`: promotes the existing page post `{pageId}_{postId}`. */
    method CreateCreative(pageId: string, postId: string) returns (r: Result<string>)
      modifies this
      ensures responses == Tail(old(responses))
      ensures log == old(log) + [Exchange(CreateCreativeCall("Creative - " + postId, pageId + "_" + postId, pageId),
                                          Head(old(responses)))]
      ensures r == CreatedId(Head(old(responses)), "creative")
    {
      var resp := Send(CreateCreativeCall("Creative - " + postId, pageId + "_" + postId, pageId));
      r := CreatedId(resp, "creative");
    }

    /** `createAd`. */
    method CreateAd(adSetId: Option<string>, creativeId: string, name: string) returns (r: Result<string>)
      modifies this
      ensures responses == Tail(old(responses))
      ensures log == old(log) + [Exchange(CreateAdCall(adSetId, creativeId, name), Head(old(responses)))]
      ensures r == CreatedId(Head(old(responses)), "ad")
    {
      var resp := Send(CreateAdCall(adSetId, creativeId, name));
      r := CreatedId(resp, "ad");
    }

    /** `updateAdStatus`: fails only when the request does. */
    method UpdateAdStatus(adId: string, status: AdStatus) returns (r: Result<()>)
      modifies this
      ensures responses == Tail(old(responses))
      ensures log == old(log) + [Exchange(UpdateAdStatusCall(adId, status), Head(old(responses)))]
      ensures r.Err? <==> Head(old(responses)).error.Some?
      ensures r.Err? ==> r.error == "Meta API Error: " + Head(old(responses)).error.value
    {
      var resp := Send(UpdateAdStatusCall(adId, status));
      match RequestOutcome(resp)
      case Err(e) => r := Err(e);
      case Ok(_) => r := Ok(());
    }
  }
}
