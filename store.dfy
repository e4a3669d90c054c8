/**
 * The persistence layer (packages/api/src/services/supabase.service.ts) as an
 * in-memory store: one sequence of rows per table inside a class, the queries
 * as filters and maximum selections over those rows, and the writes (insert,
 * update by id, the `increment_ad_set_count` counter) as methods that
 * reassign one table.
 *
 * Row ids are handed out by the store from a counter, as the database does.
 * A `.single()` lookup answers a row only when exactly one row matches: the
 * client reports "no row" (code PGRST116) both for zero and for several rows,
 * and the service turns that code into `null`.
 */
module Store {
  import opened Common

  type Id = nat

  /** Ads an ad set may hold and still be offered for a new ad (`.lt('ads_count', 50)`). */
  const AD_SET_CAPACITY: nat := 50

  datatype Restaurant = Restaurant(
    id: Id,
    rid: nat,                       // the numeric, externally visible restaurant id
    name: string,
    code: string,
    slug: string,                   // "" when the column is empty
    area: string,                   // 'S-CITY' | 'M-CITY' | 'L-CITY' (anything else is tolerated)
    delivery_radius_km: int,
    budget_priorities: seq<(string, nat)>,  // the JSON object's entries, in order, keys distinct
    facebook_page_id: string,
    meta_campaign_id: Option<string>,
    lat: real,
    lng: real)

  datatype AdSetCategory = AdSetCategory(
    id: Id,
    code: string,
    parent_category: string,
    requires_delivery: bool,
    is_event_type: bool)

  datatype AdSetStatus = AdSetActive | AdSetPaused

  datatype AdSet = AdSet(
    id: Id,
    restaurant_id: Id,
    category_id: Id,
    meta_ad_set_id: Option<string>,
    name: string,
    version: nat,
    ads_count: nat,
    status: AdSetStatus,
    event_identifier: Option<string>)

  datatype PostStatus = Pending | Active | Paused | Expired

  datatype Post = Post(
    id: Id,
    restaurant_id: Id,
    ad_set_id: Option<Id>,
    meta_post_id: string,
    meta_ad_id: Option<string>,
    meta_creative_id: Option<string>,
    content: string,
    category_code: Option<string>,
    event_date: Option<string>,
    promotion_end_date: Option<string>,
    status: PostStatus)

  datatype Event = Event(
    id: Id,
    restaurant_id: Id,
    ad_set_id: Id,
    identifier: string,
    name: string,
    event_date: string)

  /** The fields an `updatePost` call sends; `None` leaves a column as it is. */
  datatype PostPatch = PostPatch(
    ad_set_id: Option<Id>,
    meta_ad_id: Option<string>,
    meta_creative_id: Option<string>,
    category_code: Option<string>,
    event_date: Option<Option<string>>,
    promotion_end_date: Option<Option<string>>,
    status: Option<PostStatus>)

  /** `{ status }` alone. */
  function StatusPatch(s: PostStatus): PostPatch {
    PostPatch(None, None, None, None, None, None, Some(s))
  }

  /** The fields an `updateRestaurant` call sends. */
  datatype RestaurantPatch = RestaurantPatch(slug: Option<string>, meta_campaign_id: Option<Option<string>>)

  function Patched(p: Post, u: PostPatch): (q: Post)
    ensures q.id == p.id && q.restaurant_id == p.restaurant_id
    ensures q.meta_post_id == p.meta_post_id && q.content == p.content
    ensures u.status.None? ==> q.status == p.status
    ensures u.status.Some? ==> q.status == u.status.value
    ensures u.meta_ad_id.None? ==> q.meta_ad_id == p.meta_ad_id
    ensures u.meta_ad_id.Some? ==> q.meta_ad_id == u.meta_ad_id
  {
    p.(ad_set_id := if u.ad_set_id.Some? then u.ad_set_id else p.ad_set_id,
       meta_ad_id := if u.meta_ad_id.Some? then u.meta_ad_id else p.meta_ad_id,
       meta_creative_id := if u.meta_creative_id.Some? then u.meta_creative_id else p.meta_creative_id,
       category_code := if u.category_code.Some? then u.category_code else p.category_code,
       event_date := if u.event_date.Some? then u.event_date.value else p.event_date,
       promotion_end_date := if u.promotion_end_date.Some? then u.promotion_end_date.value else p.promotion_end_date,
       status := if u.status.Some? then u.status.value else p.status)
  }

  /** A status-only update changes the status and nothing else. */
  lemma StatusPatchOnlyStatus(p: Post, s: PostStatus)
    ensures Patched(p, StatusPatch(s)) == p.(status := s)
  {
  }


  function PatchedRestaurant(r: Restaurant, u: RestaurantPatch): Restaurant {
    r.(slug := if u.slug.Some? then u.slug.value else r.slug,
       meta_campaign_id := if u.meta_campaign_id.Some? then u.meta_campaign_id.value else r.meta_campaign_id)
  }

  // ---------------------------------------------------------------------------
  // Queries over the tables
  // ---------------------------------------------------------------------------

  /**
   * The filter of `getAdSetForCategory`: same restaurant and category, ACTIVE,
   * under capacity, and the given event identifier (`.eq`) or, when none is
   * given, no event identifier (`.is(null)`).
   */
  predicate Usable(a: AdSet, restaurantId: Id, categoryId: Id, eventIdentifier: Option<string>) {
    && a.restaurant_id == restaurantId
    && a.category_id == categoryId
    && a.status == AdSetActive
    && a.ads_count < AD_SET_CAPACITY
    && a.event_identifier == (if Truthy(eventIdentifier) then eventIdentifier else None)
  }

  /** `.order('version', { ascending: false }).limit(1)` over the usable ad sets. */
  function SelectAdSet(adSets: seq<AdSet>, restaurantId: Id, categoryId: Id, eventIdentifier: Option<string>)
    : (r: Option<AdSet>)
    ensures r.Some? ==> r.value in adSets && Usable(r.value, restaurantId, categoryId, eventIdentifier)
    ensures r.Some? ==> forall b :: b in adSets && Usable(b, restaurantId, categoryId, eventIdentifier) ==>
                          b.version <= r.value.version
    ensures r.None? <==> forall b :: b in adSets ==> !Usable(b, restaurantId, categoryId, eventIdentifier)
  {
    if adSets == [] then None
    else
      var rest := SelectAdSet(adSets[1..], restaurantId, categoryId, eventIdentifier);
      if !Usable(adSets[0], restaurantId, categoryId, eventIdentifier) then rest
      else if rest.None? || rest.value.version <= adSets[0].version then Some(adSets[0])
      else rest
  }

  /** An ad set whose version is above every other usable one is the one selected. */
  lemma {:induction false} SelectStrictMaximum(adSets: seq<AdSet>, x: AdSet, restaurantId: Id, categoryId: Id,
                                              eventIdentifier: Option<string>)
    requires Usable(x, restaurantId, categoryId, eventIdentifier)
    requires forall b :: b in adSets && Usable(b, restaurantId, categoryId, eventIdentifier) ==> b.version < x.version
    ensures SelectAdSet(adSets + [x], restaurantId, categoryId, eventIdentifier) == Some(x)
  {
    if adSets == [] {
      assert adSets + [x] == [x];
    } else {
      assert (adSets + [x])[1..] == adSets[1..] + [x];
      SelectStrictMaximum(adSets[1..], x, restaurantId, categoryId, eventIdentifier);
    }
  }

  /** The highest version among the ad sets of a restaurant and category, 0 when there are none. */
  function MaxVersion(adSets: seq<AdSet>, restaurantId: Id, categoryId: Id): (m: nat)
    ensures forall b :: b in adSets && b.restaurant_id == restaurantId && b.category_id == categoryId ==>
              b.version <= m
    ensures m > 0 ==> exists b :: b in adSets && b.restaurant_id == restaurantId && b.category_id == categoryId &&
                                  b.version == m
  {
    if adSets == [] then 0
    else
      var rest := MaxVersion(adSets[1..], restaurantId, categoryId);
      if adSets[0].restaurant_id == restaurantId && adSets[0].category_id == categoryId && adSets[0].version > rest
      then adSets[0].version
      else rest
  }

  /** The filter of `getExpiredPosts`: ACTIVE and ending today or earlier (a NULL end date never matches). */
  predicate IsExpired(p: Post, today: string) {
    p.status == Active && p.promotion_end_date.Some? && LexLessEq(p.promotion_end_date.value, today)
  }

  function ExpiredPosts(posts: seq<Post>, today: string): (r: seq<Post>)
    ensures forall p :: p in r <==> p in posts && IsExpired(p, today)
  {
    Filter(posts, (p: Post) => IsExpired(p, today))
  }

  // ---------------------------------------------------------------------------
  // Invariants the pipeline keeps over the tables
  // ---------------------------------------------------------------------------

  /** At most one post per Meta post id (what the idempotency check relies on). */
  ghost predicate UniqueMetaPostIds(posts: seq<Post>) {
    forall i, j :: 0 <= i < |posts| && 0 <= j < |posts| && posts[i].meta_post_id == posts[j].meta_post_id ==> i == j
  }

  /** At most one event per restaurant and identifier. */
  ghost predicate UniqueEventKeys(events: seq<Event>) {
    forall i, j ::
      (0 <= i < |events| && 0 <= j < |events| &&
       events[i].restaurant_id == events[j].restaurant_id && events[i].identifier == events[j].identifier) ==> i == j
  }

  /** No ad set holds more than its capacity. */
  ghost predicate WithinCapacity(adSets: seq<AdSet>) {
    forall a :: a in adSets ==> a.ads_count <= AD_SET_CAPACITY
  }

  /** Within one restaurant and category no two ad sets share a version (and hence a name). */
  ghost predicate DistinctVersions(adSets: seq<AdSet>) {
    forall i, j ::
      (0 <= i < |adSets| && 0 <= j < |adSets| &&
       adSets[i].restaurant_id == adSets[j].restaurant_id && adSets[i].category_id == adSets[j].category_id &&
       adSets[i].version == adSets[j].version) ==> i == j
  }

  /** No post is ACTIVE unless the Meta ad behind it exists. */
  ghost predicate ActiveHaveAds(posts: seq<Post>) {
    forall p :: p in posts && p.status == Active ==> Truthy(p.meta_ad_id)
  }

  /** A patch that cannot leave a post ACTIVE without an ad id. */
  predicate KeepsAds(u: PostPatch) {
    && (u.status == Some(Active) ==> Truthy(u.meta_ad_id))
    && (u.meta_ad_id.Some? ==> Truthy(u.meta_ad_id))
  }

  /** The ad sets after a step that may insert new, still empty ad sets and changes no existing one. */
  ghost predicate GrowsByEmpty(before: seq<AdSet>, after: seq<AdSet>) {
    && |before| <= |after| && after[..|before|] == before
    && forall i :: |before| <= i < |after| ==> after[i].ads_count == 0
  }

  lemma GrowsByEmptyTransitive(a: seq<AdSet>, b: seq<AdSet>, c: seq<AdSet>)
    requires GrowsByEmpty(a, b) && GrowsByEmpty(b, c)
    ensures GrowsByEmpty(a, c)
  {
    assert c[..|b|][..|a|] == c[..|a|];
  }

  /** The ad sets after the `increment_ad_set_count` RPC: the row with that id counts one more ad. */
  function WithOneMoreAd(adSets: seq<AdSet>, id: Id): (r: seq<AdSet>)
    ensures |r| == |adSets|
    ensures forall i :: 0 <= i < |adSets| ==>
              r[i] == if adSets[i].id == id then adSets[i].(ads_count := adSets[i].ads_count + 1) else adSets[i]
  {
    PatchWhere(adSets, (a: AdSet) => a.id == id, (a: AdSet) => a.(ads_count := a.ads_count + 1))
  }

  /** Appending an ad set with no ads is growth by an empty row and keeps every ad set within capacity. */
  lemma AppendEmptyAdSet(adSets: seq<AdSet>, row: AdSet)
    requires row.ads_count == 0
    ensures GrowsByEmpty(adSets, adSets + [row])
    ensures WithinCapacity(adSets) ==> WithinCapacity(adSets + [row])
  {
    assert (adSets + [row])[..|adSets|] == adSets;
  }

  /** Row ids are distinct, so a row is the only one in its table with its id. */
  lemma OnlyRowWithId<R>(rows: seq<R>, key: R -> Id, a: R)
    requires IdsDistinct(Ids(rows, key)) && a in rows
    ensures forall i :: 0 <= i < |rows| && key(rows[i]) == key(a) ==> rows[i] == a
  {
    var j :| 0 <= j < |rows| && rows[j] == a;
    forall i | 0 <= i < |rows| && key(rows[i]) == key(a) ensures rows[i] == a {
      assert Ids(rows, key)[i] == Ids(rows, key)[j];
    }
  }

  /** A table with one more row in front has distinct ids exactly when the rest does and no row repeats its id. */
  lemma IdsDistinctCons<R>(x: R, rest: seq<R>, key: R -> Id)
    ensures IdsDistinct(Ids([x] + rest, key)) <==>
            IdsDistinct(Ids(rest, key)) && forall q :: q in rest ==> key(q) != key(x)
  {
    var rows, ids, tail := [x] + rest, Ids([x] + rest, key), Ids(rest, key);
    assert ids == [key(x)] + tail;
    if IdsDistinct(ids) {
      forall i, j | 0 <= i < |tail| && 0 <= j < |tail| && tail[i] == tail[j] ensures i == j {
        assert ids[i + 1] == ids[j + 1];
      }
      forall q | q in rest ensures key(q) != key(x) {
        var k :| 0 <= k < |rest| && rest[k] == q;
        assert ids[k + 1] != ids[0];
      }
    }
    if IdsDistinct(tail) && forall q :: q in rest ==> key(q) != key(x) {
      forall i, j | 0 <= i < |ids| && 0 <= j < |ids| && ids[i] == ids[j] ensures i == j {
        if i > 0 && j > 0 {
          assert tail[i - 1] == tail[j - 1];
        }
      }
    }
  }

  ghost predicate IdsBelow(ids: seq<Id>, bound: nat) {
    forall i :: 0 <= i < |ids| ==> ids[i] < bound
  }

  ghost predicate IdsDistinct(ids: seq<Id>) {
    forall i, j :: 0 <= i < |ids| && 0 <= j < |ids| && ids[i] == ids[j] ==> i == j
  }

  /** The id column of a table, row by row. */
  function Ids<R>(rows: seq<R>, key: R -> Id): (ids: seq<Id>)
    ensures |ids| == |rows| && forall i :: 0 <= i < |rows| ==> ids[i] == key(rows[i])
  {
    seq(|rows|, i requires 0 <= i < |rows| => key(rows[i]))
  }

  function RestaurantId(x: Restaurant): Id { x.id }
  function AdSetId(a: AdSet): Id { a.id }
  function PostId(p: Post): Id { p.id }
  function EventId(e: Event): Id { e.id }

  /** Appending a fresh id keeps the ids distinct and below the advanced counter. */
  lemma FreshIdAppended(ids: seq<Id>, bound: nat)
    requires IdsBelow(ids, bound) && IdsDistinct(ids)
    ensures IdsBelow(ids + [bound], bound + 1) && IdsDistinct(ids + [bound])
  {
  }

  /** Every table's ids are distinct and below the id counter. */
  ghost predicate TablesValid(restaurants: seq<Restaurant>, adSets: seq<AdSet>, posts: seq<Post>,
                              events: seq<Event>, nextId: nat) {
    && IdsBelow(Ids(restaurants, RestaurantId), nextId) && IdsDistinct(Ids(restaurants, RestaurantId))
    && IdsBelow(Ids(adSets, AdSetId), nextId) && IdsDistinct(Ids(adSets, AdSetId))
    && IdsBelow(Ids(posts, PostId), nextId) && IdsDistinct(Ids(posts, PostId))
    && IdsBelow(Ids(events, EventId), nextId) && IdsDistinct(Ids(events, EventId))
  }

  /** The invariants the pipeline keeps over the tables. */
  ghost predicate TablesConsistent(adSets: seq<AdSet>, posts: seq<Post>, events: seq<Event>) {
    && UniqueMetaPostIds(posts) && ActiveHaveAds(posts)
    && UniqueEventKeys(events)
    && WithinCapacity(adSets) && DistinctVersions(adSets)
  }

  /** The posts after `.update(u).eq('id', id)`: that post patched, every other post as it was. */
  function PatchPosts(posts: seq<Post>, id: Id, u: PostPatch): (r: seq<Post>)
    ensures |r| == |posts|
    ensures forall i :: 0 <= i < |posts| ==> r[i] == if posts[i].id == id then Patched(posts[i], u) else posts[i]
  {
    PatchWhere(posts, (p: Post) => p.id == id, (p: Post) => Patched(p, u))
  }

  /** The posts after `updatePost(id, { status })`: that post's status replaced, every other post as it was. */
  function SetStatus(posts: seq<Post>, id: Id, status: PostStatus): (r: seq<Post>)
    ensures |r| == |posts|
    ensures forall i :: 0 <= i < |posts| ==> r[i] == if posts[i].id == id then posts[i].(status := status) else posts[i]
  {
    var r := PatchPosts(posts, id, StatusPatch(status));
    assert forall i :: 0 <= i < |posts| ==> Patched(posts[i], StatusPatch(status)) == posts[i].(status := status);
    r
  }

  /** `.eq('id', id).single()` on posts with distinct ids: the row, or PostgREST's error when there is none. */
  function SingleById(posts: seq<Post>, id: Id): (r: Result<Post>)
    requires IdsDistinct(Ids(posts, PostId))
    ensures r.Ok? <==> exists i :: 0 <= i < |posts| && posts[i].id == id
    ensures forall i :: 0 <= i < |posts| && posts[i].id == id ==> r == Ok(posts[i])
    ensures r.Err? ==> r.error == "Cannot coerce the result to a single JSON object"
  {
    var f := (p: Post) => p.id == id;
    FilterAtMostOne(posts, f);
    var found := Single(Filter(posts, f));
    if found.Some? then
      assert found.value in Filter(posts, f);
      var k :| 0 <= k < |posts| && posts[k] == found.value;
      assert forall i :: 0 <= i < |posts| && posts[i].id == id ==> Ids(posts, PostId)[i] == Ids(posts, PostId)[k];
      Ok(found.value)
    else
      assert forall i :: 0 <= i < |posts| ==> posts[i] in posts;
      Err("Cannot coerce the result to a single JSON object")
  }

  /** Patching the rows with one id keeps every id and the invariants a patch cannot break. */
  lemma PatchKeepsInvariants(before: seq<Post>, after: seq<Post>, id: Id, u: PostPatch)
    requires |after| == |before|
    requires forall i :: 0 <= i < |before| ==> after[i] == if before[i].id == id then Patched(before[i], u) else before[i]
    ensures Ids(after, PostId) == Ids(before, PostId)
    ensures forall i :: 0 <= i < |before| ==> after[i].id == before[i].id
    ensures UniqueMetaPostIds(before) ==> UniqueMetaPostIds(after)
    ensures ActiveHaveAds(before) && KeepsAds(u) ==> ActiveHaveAds(after)
  {
    assert forall i :: 0 <= i < |before| ==> after[i].id == before[i].id && after[i].meta_post_id == before[i].meta_post_id;
    if ActiveHaveAds(before) && KeepsAds(u) {
      forall p | p in after && p.status == Active ensures Truthy(p.meta_ad_id) {
        var i :| 0 <= i < |after| && after[i] == p;
      }
    }
  }

  class Database {
    var restaurants: seq<Restaurant>
    var categories: seq<AdSetCategory>
    var adSets: seq<AdSet>
    var posts: seq<Post>
    var events: seq<Event>
    var nextId: nat

    /** Every row has its own id, and the counter is above all of them. */
    ghost predicate Valid()
      reads this
    {
      TablesValid(restaurants, adSets, posts, events, nextId)
    }

    /** The invariants the pipeline keeps over the whole store. */
    ghost predicate Consistent()
      reads this
    {
      TablesConsistent(adSets, posts, events)
    }

    constructor (restaurants: seq<Restaurant>, categories: seq<AdSetCategory>)
      requires IdsDistinct(Ids(restaurants, RestaurantId))
      ensures Valid() && Consistent()
      ensures this.restaurants == restaurants && this.categories == categories
      ensures adSets == [] && posts == [] && events == []
    {
      this.restaurants := restaurants;
      this.categories := categories;
      adSets, posts, events := [], [], [];
      var m: nat := 0;
      for i := 0 to |restaurants|
        invariant forall k :: 0 <= k < i ==> restaurants[k].id < m
      {
        if restaurants[i].id >= m {
          m := restaurants[i].id + 1;
        }
      }
      nextId := m;
    }

    // -------------------------------------------------------------------------
    // Reads
    // -------------------------------------------------------------------------

    /** `getRestaurant(id)`: the row, or null when there is none. */
    function RestaurantById(id: Id): (r: Option<Restaurant>)
      reads this
      requires Valid()
      ensures r.Some? ==> r.value in restaurants && r.value.id == id
      ensures r.None? <==> forall x :: x in restaurants ==> x.id != id
    {
      var f := (x: Restaurant) => x.id == id;
      FilterAtMostOne(restaurants, f);
      Single(Filter(restaurants, f))
    }

    /** `getRestaurantByPageId(pageId)`: null when no restaurant, or several, have that page. */
    function RestaurantByPageId(pageId: string): (r: Option<Restaurant>)
      reads this`restaurants
      ensures r.Some? ==> r.value in restaurants && r.value.facebook_page_id == pageId
      ensures (forall x :: x in restaurants ==> x.facebook_page_id != pageId) ==> r.None?
    {
      Single(Filter(restaurants, (x: Restaurant) => x.facebook_page_id == pageId))
    }

    /** `getAdSetCategory(code)`: null when the code is unknown (or not unique). */
    function CategoryByCode(code: string): (r: Option<AdSetCategory>)
      reads this`categories
      ensures r.Some? ==> r.value in categories && r.value.code == code
      ensures (forall c :: c in categories ==> c.code != code) ==> r.None?
    {
      Single(Filter(categories, (c: AdSetCategory) => c.code == code))
    }

    /**
     * `getAdSetForCategory`: null for an unknown category; otherwise the usable
     * ad set of the highest version, null only when none is usable.
     */
    function AdSetForCategory(restaurantId: Id, categoryCode: string, eventIdentifier: Option<string>)
      : (r: Option<AdSet>)
      reads this`categories, this`adSets
      ensures CategoryByCode(categoryCode).None? ==> r.None?
      ensures r.Some? ==> r.value in adSets && r.value.restaurant_id == restaurantId &&
                          r.value.status == AdSetActive && r.value.ads_count < AD_SET_CAPACITY
      ensures r.Some? ==> r.value.event_identifier == OrNull(eventIdentifier)
      ensures r.Some? ==> r.value.category_id == CategoryByCode(categoryCode).value.id
    {
      match CategoryByCode(categoryCode)
      case None => None
      case Some(category) => SelectAdSet(adSets, restaurantId, category.id, eventIdentifier)
    }

    /** `getNextAdSetVersion`: one above every version of that restaurant and category, whatever their status. */
    function NextAdSetVersion(restaurantId: Id, categoryId: Id): (v: nat)
      reads this`adSets
      ensures v >= 1
      ensures forall b :: b in adSets && b.restaurant_id == restaurantId && b.category_id == categoryId ==>
                b.version < v
      ensures v == 1 || exists b :: b in adSets && b.restaurant_id == restaurantId && b.category_id == categoryId &&
                                    b.version == v - 1
    {
      MaxVersion(adSets, restaurantId, categoryId) + 1
    }

    /** `getPostByMetaId`: null when no post (or several) carry that Meta post id. */
    function PostByMetaId(metaPostId: string): (r: Option<Post>)
      reads this`posts
      ensures r.Some? ==> r.value in posts && r.value.meta_post_id == metaPostId
      ensures (forall p :: p in posts ==> p.meta_post_id != metaPostId) ==> r.None?
      ensures UniqueMetaPostIds(posts) ==> (r.None? <==> forall p :: p in posts ==> p.meta_post_id != metaPostId)
    {
      var f := (p: Post) => p.meta_post_id == metaPostId;
      FilterUnique(posts, f);
      Single(Filter(posts, f))
    }

    /** `getExpiredPosts`: the ACTIVE posts whose end date is on or before today. */
    function ExpiredPostsAsOf(today: string): (r: seq<Post>)
      reads this`posts
      ensures forall p :: p in r <==> p in posts && IsExpired(p, today)
    {
      ExpiredPosts(posts, today)
    }

    /** `getEvent(restaurantId, identifier)`: null when there is no such event (or several). */
    function EventFor(restaurantId: Id, identifier: string): (r: Option<Event>)
      reads this`events
      ensures r.Some? ==> r.value in events && r.value.restaurant_id == restaurantId && r.value.identifier == identifier
      ensures UniqueEventKeys(events) ==>
                (r.None? <==> forall e :: e in events ==> !(e.restaurant_id == restaurantId && e.identifier == identifier))
    {
      var f := (e: Event) => e.restaurant_id == restaurantId && e.identifier == identifier;
      FilterUnique(events, f);
      Single(Filter(events, f))
    }

    // -------------------------------------------------------------------------
    // Writes
    // -------------------------------------------------------------------------

    /** `createRestaurant`: inserts a row under a fresh id. */
    method CreateRestaurant(r: Restaurant) returns (row: Restaurant)
      requires Valid()
      modifies this`restaurants, this`nextId
      ensures Valid()
      ensures row == r.(id := old(nextId)) && restaurants == old(restaurants) + [row]
    {
      row := r.(id := nextId);
      FreshIdAppended(Ids(restaurants, RestaurantId), nextId);
      assert Ids(restaurants + [row], RestaurantId) == Ids(restaurants, RestaurantId) + [nextId];
      restaurants := restaurants + [row];
      nextId := nextId + 1;
    }

    /** Ids are distinct, so looking a restaurant up by its own id finds that row. */
    lemma RestaurantByOwnId(x: Restaurant)
      requires Valid() && x in restaurants
      ensures RestaurantById(x.id) == Some(x)
    {
      var i :| 0 <= i < |restaurants| && restaurants[i] == RestaurantById(x.id).value;
      OnlyRowWithId(restaurants, RestaurantId, x);
    }

    /** `updateRestaurant(id, updates)`: rewrites the row with that id; an error when there is none. */
    method UpdateRestaurant(id: Id, u: RestaurantPatch) returns (r: Result<Restaurant>)
      requires Valid()
      modifies this`restaurants
      ensures Valid()
      ensures restaurants == PatchWhere(old(restaurants), (x: Restaurant) => x.id == id,
                                        (x: Restaurant) => PatchedRestaurant(x, u))
      ensures r.Ok? <==> exists x :: x in old(restaurants) && x.id == id
      ensures r.Ok? ==> r.value in restaurants && r.value.id == id &&
                        r.value == PatchedRestaurant(old(RestaurantById(id)).value, u)
    {
      var before := restaurants;
      restaurants := PatchWhere(restaurants, (x: Restaurant) => x.id == id, (x: Restaurant) => PatchedRestaurant(x, u));
      assert Ids(restaurants, RestaurantId) == Ids(before, RestaurantId);
      var found := RestaurantById(id);
      if found.Some? {
        var i :| 0 <= i < |restaurants| && restaurants[i] == found.value;
        assert before[i].id == id;
        assert before[i] == old(RestaurantById(id)).value;
        r := Ok(found.value);
      } else {
        r := Err("Cannot coerce the result to a single JSON object");
        forall x | x in before ensures x.id != id {
          var i :| 0 <= i < |before| && before[i] == x;
          assert restaurants[i].id == x.id;
        }
      }
    }

    /** `createAdSet`: inserts a row under a fresh id. */
    method CreateAdSet(a: AdSet) returns (row: AdSet)
      requires Valid()
      modifies this`adSets, this`nextId
      ensures Valid()
      ensures row == a.(id := old(nextId)) && adSets == old(adSets) + [row]
      ensures forall b :: b in old(adSets) ==> b.id != row.id
    {
      row := a.(id := nextId);
      FreshIdAppended(Ids(adSets, AdSetId), nextId);
      assert Ids(adSets + [row], AdSetId) == Ids(adSets, AdSetId) + [nextId];
      adSets := adSets + [row];
      nextId := nextId + 1;
    }

    /** `incrementAdSetCount(id)`: one more ad on the ad set with that id, every other row as it was. */
    method IncrementAdSetCount(id: Id)
      requires Valid()
      modifies this`adSets
      ensures Valid()
      ensures adSets == WithOneMoreAd(old(adSets), id)
      ensures (WithinCapacity(old(adSets)) &&
               forall a :: a in old(adSets) && a.id == id ==> a.ads_count < AD_SET_CAPACITY) ==> WithinCapacity(adSets)
      ensures DistinctVersions(old(adSets)) ==> DistinctVersions(adSets)
    {
      var before := adSets;
      adSets := WithOneMoreAd(adSets, id);
      assert Ids(adSets, AdSetId) == Ids(before, AdSetId);
    }

    /** `createPost`: inserts a row under a fresh id. */
    method CreatePost(p: Post) returns (row: Post)
      requires Valid()
      modifies this`posts, this`nextId
      ensures Valid()
      ensures row == p.(id := old(nextId)) && posts == old(posts) + [row]
      ensures forall q :: q in old(posts) ==> q.id != row.id
      ensures (UniqueMetaPostIds(old(posts)) && forall q :: q in old(posts) ==> q.meta_post_id != p.meta_post_id) ==>
                UniqueMetaPostIds(posts)
      ensures ActiveHaveAds(old(posts)) && p.status != Active ==> ActiveHaveAds(posts)
    {
      row := p.(id := nextId);
      FreshIdAppended(Ids(posts, PostId), nextId);
      assert Ids(posts + [row], PostId) == Ids(posts, PostId) + [nextId];
      posts := posts + [row];
      nextId := nextId + 1;
    }

    /** `updatePost(id, updates)`: rewrites the row with that id; an error when there is none. */
    method UpdatePost(id: Id, u: PostPatch) returns (r: Result<Post>)
      requires Valid()
      modifies this`posts
      ensures Valid()
      ensures posts == PatchPosts(old(posts), id, u)
      ensures r.Ok? <==> exists i :: 0 <= i < |old(posts)| && old(posts)[i].id == id
      ensures forall i :: 0 <= i < |posts| && old(posts)[i].id == id ==> r == Ok(posts[i])
      ensures UniqueMetaPostIds(old(posts)) ==> UniqueMetaPostIds(posts)
      ensures ActiveHaveAds(old(posts)) && KeepsAds(u) ==> ActiveHaveAds(posts)
    {
      var before := posts;
      posts := PatchPosts(posts, id, u);
      PatchKeepsInvariants(before, posts, id, u);
      r := SingleById(posts, id);
    }

    /** `createEvent`: inserts a row under a fresh id. */
    method CreateEvent(e: Event) returns (row: Event)
      requires Valid()
      modifies this`events, this`nextId
      ensures Valid()
      ensures row == e.(id := old(nextId)) && events == old(events) + [row]
      ensures (UniqueEventKeys(old(events)) &&
               forall x :: x in old(events) ==> !(x.restaurant_id == e.restaurant_id && x.identifier == e.identifier)) ==>
                UniqueEventKeys(events)
    {
      row := e.(id := nextId);
      FreshIdAppended(Ids(events, EventId), nextId);
      assert Ids(events + [row], EventId) == Ids(events, EventId) + [nextId];
      events := events + [row];
      nextId := nextId + 1;
    }
  }
}
