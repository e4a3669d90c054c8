/**
 * The post promotion pipeline (packages/api/src/modules/posts/posts.service.ts).
 *
 * `ProcessPost` is idempotent on the Meta post id, inserts the post as
 * PENDING, classifies it, records a new event when the classification names
 * one, resolves the ad set, creates the creative and the ad in Meta, counts
 * the ad on its ad set and only then marks the post ACTIVE; on any failure
 * the post stays PENDING and the error is passed on. `PausePost` and
 * `ActivatePost` toggle a post's status, pausing or resuming its Meta ad
 * first when it has one.
 *
 * The classifier's answer (`LlmReply`), today + 30 and today + 60 as date
 * strings, and today's day, month and year are parameters.
 */
module Posts {
  import opened Common
  import opened Store
  import opened MetaApi
  import opened Classifier
  import opened AdSets

  // ---------------------------------------------------------------------------
  // Ad naming
  // ---------------------------------------------------------------------------

  /** `n.toString().padStart(2, '0')`. */
  function TwoDigits(n: nat): (s: string)
    ensures |s| >= 2 && AllDigits(s) && DecimalValue(s) == n
    ensures n < 100 ==> |s| == 2
  {
    VersionLabel(n)
  }

  /** A number of at least two digits ends in its tens digit and its units digit. */
  lemma NatToStringEnds(n: nat)
    requires n >= 10
    ensures var s := NatToString(n);
            |s| >= 2 && s[|s| - 2..] == [DigitChar((n / 10) % 10), DigitChar(n % 10)]
  {
    var head := NatToString(n / 10);
    assert NatToString(n) == head + [DigitChar(n % 10)];
    assert head[|head| - 1] == DigitChar((n / 10) % 10);
  }

  /** The last two decimal digits of a number of at least two digits denote it modulo 100. */
  lemma {:induction false} LastTwoDigits(n: nat)
    requires n >= 10
    ensures |LastChars(NatToString(n), 2)| == 2 && AllDigits(LastChars(NatToString(n), 2))
    ensures DecimalValue(LastChars(NatToString(n), 2)) == n % 100
  {
    NatToStringEnds(n);
    var t := LastChars(NatToString(n), 2);
    var tens, units := (n / 10) % 10, n % 10;
    assert t == [DigitChar(tens), DigitChar(units)];
    assert t[..1] == [DigitChar(tens)] && t[..1][..0] == [];
    assert DecimalValue(t[..1]) == DigitValue(DigitChar(tens)) == tens;
    assert DecimalValue(t) == DecimalValue(t[..1]) * 10 + DigitValue(DigitChar(units));
    assert n % 100 == tens * 10 + units;
  }

  /** The DDMMYY stamp of the ad name: day, month and the last two digits of the year. */
  function DateStamp(day: nat, month: nat, year: nat): (s: string)
    requires 1 <= day <= 31 && 1 <= month <= 12 && year >= 10
    ensures |s| == 6 && AllDigits(s)
    ensures DecimalValue(s[..2]) == day && DecimalValue(s[2..4]) == month && DecimalValue(s[4..]) == year % 100
  {
    LastTwoDigits(year);
    var dd, mm, yy := TwoDigits(day), TwoDigits(month), LastChars(NatToString(year), 2);
    StampParts(dd, mm, yy);
    dd + mm + yy
  }

  /** Three two-digit parts side by side: six digits, each part at its place. */
  lemma StampParts(dd: string, mm: string, yy: string)
    requires |dd| == 2 && |mm| == 2 && |yy| == 2 && AllDigits(dd) && AllDigits(mm) && AllDigits(yy)
    ensures var s := dd + mm + yy;
            |s| == 6 && AllDigits(s) && s[..2] == dd && s[2..4] == mm && s[4..] == yy
  {
    var s := dd + mm + yy;
    assert s[..2] == dd && s[2..4] == mm && s[4..] == yy;
    assert forall i :: 0 <= i < 6 ==> s[i] == if i < 2 then dd[i] else if i < 4 then mm[i - 2] else yy[i - 4];
  }

  /** `${adSet.name}_${postId.slice(-6)}_${dateStr}`. */
  function AdName(adSetName: string, postId: string, stamp: string): (name: string)
    ensures |name| >= |adSetName| + |stamp| + 2
    ensures name[..|adSetName| + 1] == adSetName + "_" && name[|name| - |stamp| - 1..] == "_" + stamp
    ensures var tail := name[|adSetName| + 1..|name| - |stamp| - 1];
            && |tail| == (if |postId| < 6 then |postId| else 6)
            && postId == postId[..|postId| - |tail|] + tail
  {
    var tail := LastChars(postId, 6);
    var name := adSetName + "_" + tail + "_" + stamp;
    assert name[|adSetName| + 1..|name| - |stamp| - 1] == tail;
    name
  }

  // ---------------------------------------------------------------------------
  // processPost
  // ---------------------------------------------------------------------------

  /** The row `processPost` inserts before any other step. */
  function PendingPost(restaurantId: Id, postId: string, content: string): Post {
    Post(0, restaurantId, None, postId, None, None, content, None, None, None, Pending)
  }

  /** `isEvent && categorization.event_identifier`: the identifier ad-set resolution gets, if any. */
  function EventIdentifier(c: CategorizeResult): (ev: Option<string>)
    ensures ev.Some? <==> StartsWith(c.category, "EV_") && Truthy(c.event_identifier)
    ensures ev.Some? ==> ev == c.event_identifier && ev.value != ""
  {
    if StartsWith(c.category, "EV_") && Truthy(c.event_identifier) then c.event_identifier else None
  }

  /** The row `processPost` writes once the ad exists. */
  function PromotionPatch(adSetId: Id, adId: string, creativeId: string, c: CategorizeResult): (u: PostPatch)
    ensures adId != "" ==> KeepsAds(u)
  {
    PostPatch(Some(adSetId), Some(adId), Some(creativeId), Some(c.category), Some(c.event_date),
              Some(c.promotion_end_date), Some(Active))
  }

  /** An event is already stored for the identifier the classification names. */
  predicate EventKnown(db: Database, restaurantId: Id, c: CategorizeResult)
    reads db`events
  {
    EventIdentifier(c).Some? && db.EventFor(restaurantId, EventIdentifier(c).value).Some?
  }

  /**
   * The events after the event step of `processPost`: one new event, on the
   * given ad set and named after its identifier with '-' read as ' ', exactly
   * when the classification names an event identifier and a date and no
   * event is stored for that identifier yet; otherwise no change.
   */
  ghost predicate EventStep(before: seq<Event>, after: seq<Event>, known: bool, restaurantId: Id,
                            c: CategorizeResult, adSetId: Id)
  {
    if EventIdentifier(c).Some? && !known && Truthy(c.event_date) then
      && |after| == |before| + 1 && after[..|before|] == before
      && var e := after[|before|];
         && e.restaurant_id == restaurantId && e.ad_set_id == adSetId
         && e.identifier == EventIdentifier(c).value && e.name == ReplaceChar(EventIdentifier(c).value, '-', ' ')
         && e.event_date == c.event_date.value
    else
      after == before
  }

  lemma EventStepCreated(before: seq<Event>, after: seq<Event>, known: bool, restaurantId: Id, c: CategorizeResult,
                         adSetId: Id)
    requires EventIdentifier(c).Some? && !known && Truthy(c.event_date)
    requires |after| == |before| + 1 && after[..|before|] == before
    requires after[|before|].restaurant_id == restaurantId && after[|before|].ad_set_id == adSetId
    requires after[|before|].identifier == EventIdentifier(c).value
    requires after[|before|].name == ReplaceChar(EventIdentifier(c).value, '-', ' ')
    requires after[|before|].event_date == c.event_date.value
    ensures EventStep(before, after, known, restaurantId, c, adSetId)
  {
  }

  lemma EventStepUnchanged(events: seq<Event>, known: bool, restaurantId: Id, c: CategorizeResult, adSetId: Id)
    requires !(EventIdentifier(c).Some? && !known && Truthy(c.event_date))
    ensures EventStep(events, events, known, restaurantId, c, adSetId)
  {
  }

  /**
   * The event step: a new event is recorded, on the ad set resolved for its
   * category and identifier, only when the classification names an event
   * identifier, none exists yet for this restaurant and identifier, and the
   * classification gave an event date.
   */
  method RecordEvent(db: Database, meta: MetaClient, restaurant: Restaurant, c: CategorizeResult)
    returns (r: Result<()>)
    requires db.Valid() && db.Consistent()
    modifies db`adSets, db`events, db`nextId, meta
    ensures db.Valid() && db.Consistent()
    ensures GrowsByEmpty(old(db.adSets), db.adSets)
    ensures LogExtends(old(meta.log), meta.log)
    ensures EventIdentifier(c).None? || old(EventKnown(db, restaurant.id, c)) || !Truthy(c.event_date) ==>
              && r.Ok? && db.adSets == old(db.adSets) && db.events == old(db.events)
              && meta.log == old(meta.log) && meta.responses == old(meta.responses)
    ensures r.Err? ==> db.events == old(db.events)
    ensures EventIdentifier(c).Some? && !old(EventKnown(db, restaurant.id, c)) && Truthy(c.event_date) && r.Ok? ==>
              && db.AdSetForCategory(restaurant.id, c.category, EventIdentifier(c)).Some?
              && EventStep(old(db.events), db.events, false, restaurant.id, c,
                           db.AdSetForCategory(restaurant.id, c.category, EventIdentifier(c)).value.id)
  {
    if EventIdentifier(c).None? {
      return Ok(());
    }
    var existing := db.EventFor(restaurant.id, EventIdentifier(c).value);
    if existing.Some? || !Truthy(c.event_date) {
      return Ok(());
    }
    r := RecordNewEvent(db, meta, restaurant, c);
  }

  /**
   * The event step when no event is stored yet and a date is given: the ad
   * set for the category and identifier is found or created, then the event
   * is recorded on it.
   */
  method RecordNewEvent(db: Database, meta: MetaClient, restaurant: Restaurant, c: CategorizeResult)
    returns (r: Result<()>)
    requires db.Valid() && db.Consistent()
    requires EventIdentifier(c).Some? && !EventKnown(db, restaurant.id, c) && Truthy(c.event_date)
    modifies db`adSets, db`events, db`nextId, meta
    ensures db.Valid() && db.Consistent()
    ensures GrowsByEmpty(old(db.adSets), db.adSets)
    ensures LogExtends(old(meta.log), meta.log)
    ensures r.Err? ==> db.events == old(db.events)
    ensures r.Ok? ==>
              && db.AdSetForCategory(restaurant.id, c.category, EventIdentifier(c)).Some?
              && EventStep(old(db.events), db.events, false, restaurant.id, c,
                           db.AdSetForCategory(restaurant.id, c.category, EventIdentifier(c)).value.id)
  {
    var identifier := EventIdentifier(c).value;
    ghost var events0 := db.events;
    var adSet := GetOrCreateAdSet(db, meta, restaurant, c.category, Some(identifier));
    if adSet.Err? {
      return Err(adSet.error);
    }
    var e := db.CreateEvent(Event(0, restaurant.id, adSet.value.id, identifier, ReplaceChar(identifier, '-', ' '),
                                  c.event_date.value));
    EventStepCreated(events0, db.events, false, restaurant.id, c, adSet.value.id);
    r := Ok(());
  }

  /**
   * The last two requests of a log are those of steps 5 and 6 of
   * `processPost`: the creative for the page post `{pageId}_{postId}`,
   * answered with `creativeId`, then the ad in the Meta ad set
   * `adSetMetaId` with that creative and the name `adName`, answered with
   * `adId`.
   */
  predicate PlacedAd(log: seq<Exchange>, pageId: string, postId: string, adSetMetaId: Option<string>, adName: string,
                     creativeId: string, adId: string)
  {
    && |log| >= 2
    && log[|log| - 2] == Exchange(CreateCreativeCall("Creative - " + postId, pageId + "_" + postId, pageId),
                                  Response(creativeId, None))
    && log[|log| - 1] == Exchange(CreateAdCall(adSetMetaId, creativeId, adName), Response(adId, None))
  }

  /**
   * Steps 5 and 6 of `processPost`: the creative promoting the page post,
   * then the ad in the resolved ad set, named after the ad set, the post and
   * the day. Answers the creative id and the ad id, both non-empty.
   */
  method CreateAdInMeta(meta: MetaClient, restaurant: Restaurant, adSet: AdSet, postId: string, stamp: string)
    returns (r: Result<(string, string)>)
    modifies meta
    ensures LogExtends(old(meta.log), meta.log)
    ensures r.Ok? ==>
              && r.value.0 != "" && r.value.1 != ""
              && |meta.log| == |old(meta.log)| + 2
              && PlacedAd(meta.log, restaurant.facebook_page_id, postId, adSet.meta_ad_set_id,
                          AdName(adSet.name, postId, stamp), r.value.0, r.value.1)
  {
    var creativeId := meta.CreateCreative(restaurant.facebook_page_id, postId);
    if creativeId.Err? {
      return Err(creativeId.error);
    }
    var adId := meta.CreateAd(adSet.meta_ad_set_id, creativeId.value, AdName(adSet.name, postId, stamp));
    if adId.Err? {
      return Err(adId.error);
    }
    r := Ok((creativeId.value, adId.value));
  }

  /**
   * Steps 7 and 8 of `processPost`: one more ad on the ad set, then the post
   * row completed and ACTIVE. The ad set had room, so it stays within
   * capacity, and the post now has its ad.
   */
  method RecordAd(db: Database, adSet: AdSet, post: Post, c: CategorizeResult, creativeId: string, adId: string)
    returns (r: Post)
    requires db.Valid() && db.Consistent()
    requires post in db.posts && adSet in db.adSets && adSet.ads_count < AD_SET_CAPACITY && adId != ""
    modifies db`posts, db`adSets
    ensures db.Valid() && db.Consistent()
    ensures r == Patched(post, PromotionPatch(adSet.id, adId, creativeId, c))
    ensures db.adSets == WithOneMoreAd(old(db.adSets), adSet.id)
    ensures db.posts == PatchPosts(old(db.posts), post.id, PromotionPatch(adSet.id, adId, creativeId, c))
  {
    OnlyRowWithId(db.adSets, AdSetId, adSet);
    db.IncrementAdSetCount(adSet.id);
    ghost var k :| 0 <= k < |db.posts| && db.posts[k] == post;
    var updated := db.UpdatePost(post.id, PromotionPatch(adSet.id, adId, creativeId, c));
    assert updated.Ok? && updated.value == db.posts[k];
    r := updated.value;
  }

  /**
   * Steps 3 and 4 of `processPost`: the event step when the classification
   * names an event, then the ad set for the category (and the event
   * identifier, when there is one). The ad set answered is the one the
   * lookup selects once both steps are done, so a new event and the ad sit
   * on the same ad set.
   */
  method ResolveAdSet(db: Database, meta: MetaClient, restaurant: Restaurant, c: CategorizeResult)
    returns (r: Result<AdSet>)
    requires db.Valid() && db.Consistent()
    modifies db`adSets, db`events, db`nextId, meta
    ensures db.Valid() && db.Consistent()
    ensures LogExtends(old(meta.log), meta.log)
    ensures GrowsByEmpty(old(db.adSets), db.adSets)
    ensures r.Ok? ==> db.AdSetForCategory(restaurant.id, c.category, EventIdentifier(c)) == Some(r.value)
    ensures r.Ok? ==> EventStep(old(db.events), db.events, old(EventKnown(db, restaurant.id, c)), restaurant.id, c,
                                r.value.id)
    ensures r.Err? ==> db.events == old(db.events)
  {
    var eventIdentifier := EventIdentifier(c);
    ghost var adSets0 := db.adSets;
    ghost var log0 := meta.log;
    ghost var known := EventKnown(db, restaurant.id, c);
    ghost var created := eventIdentifier.Some? && !known && Truthy(c.event_date);
    var recorded := RecordEvent(db, meta, restaurant, c);
    if recorded.Err? {
      return Err(recorded.error);
    }
    ghost var adSets1 := db.adSets;
    ghost var log1 := meta.log;
    ghost var events1 := db.events;
    r := GetOrCreateAdSet(db, meta, restaurant, c.category, eventIdentifier);
    GrowsByEmptyTransitive(adSets0, adSets1, db.adSets);
    LogExtendsTransitive(log0, log1, meta.log);
    assert db.events == events1;
    if r.Ok? && !created {
      EventStepUnchanged(db.events, known, restaurant.id, c, r.value.id);
    }
  }

  /**
   * Steps 5 to 8 of `processPost` on the resolved ad set: the creative and
   * the ad in Meta, then the count and the post row. On success exactly two
   * requests were sent, the creative for the post and the ad in this ad
   * set's Meta ad set under `AdName`, and the post is patched with the ad
   * set and the two ids Meta answered; that ad set alone counts one more
   * ad. On failure nothing is stored.
   */
  method PlaceAd(db: Database, meta: MetaClient, restaurant: Restaurant, adSet: AdSet, post: Post,
                 c: CategorizeResult, stamp: string) returns (r: Result<Post>)
    requires db.Valid() && db.Consistent()
    requires post in db.posts && adSet in db.adSets && adSet.ads_count < AD_SET_CAPACITY
    modifies db`posts, db`adSets, meta
    ensures db.Valid() && db.Consistent()
    ensures LogExtends(old(meta.log), meta.log)
    ensures r.Err? ==> db.posts == old(db.posts) && db.adSets == old(db.adSets)
    ensures r.Ok? ==> && r.value.meta_ad_id.Some? && r.value.meta_creative_id.Some?
                      && r.value.meta_ad_id.value != "" && r.value.meta_creative_id.value != ""
    ensures r.Ok? ==> r.value == Patched(post, PromotionPatch(adSet.id, r.value.meta_ad_id.value,
                                                              r.value.meta_creative_id.value, c))
    ensures r.Ok? ==> db.posts == PatchPosts(old(db.posts), post.id,
                                             PromotionPatch(adSet.id, r.value.meta_ad_id.value,
                                                            r.value.meta_creative_id.value, c))
    ensures r.Ok? ==> db.adSets == WithOneMoreAd(old(db.adSets), adSet.id)
    ensures r.Ok? ==> |meta.log| == |old(meta.log)| + 2 &&
                      PlacedAd(meta.log, restaurant.facebook_page_id, post.meta_post_id, adSet.meta_ad_set_id,
                               AdName(adSet.name, post.meta_post_id, stamp),
                               r.value.meta_creative_id.value, r.value.meta_ad_id.value)
  {
    var created := CreateAdInMeta(meta, restaurant, adSet, post.meta_post_id, stamp);
    if created.Err? {
      return Err(created.error);
    }
    var promoted := RecordAd(db, adSet, post, c, created.value.0, created.value.1);
    r := Ok(promoted);
  }

  /**
   * The `try` block of `processPost` after classification. On success the
   * post row carries the ad set, the ad and creative ids, the category and
   * the dates and is ACTIVE; the ad set is the one the lookup selects in
   * the table as the event and ad-set steps left it (`resolved`), and it
   * alone counts one more ad. On failure no post row has changed and no
   * existing ad set has either.
   */
  method Promote(db: Database, meta: MetaClient, restaurant: Restaurant, post: Post, c: CategorizeResult,
                 stamp: string) returns (r: Result<Post>, ghost resolved: seq<AdSet>)
    requires db.Valid() && db.Consistent()
    requires post in db.posts
    modifies db`posts, db`adSets, db`events, db`nextId, meta
    ensures db.Valid() && db.Consistent()
    ensures LogExtends(old(meta.log), meta.log)
    ensures r.Err? ==> db.posts == old(db.posts) && GrowsByEmpty(old(db.adSets), db.adSets)
    ensures r.Err? ==> db.events == old(db.events) ||
                       exists id :: EventStep(old(db.events), db.events, old(EventKnown(db, restaurant.id, c)),
                                              restaurant.id, c, id)
    ensures r.Ok? ==> r.value.ad_set_id.Some? && r.value.meta_ad_id.Some? && r.value.meta_creative_id.Some?
    ensures r.Ok? ==> r.value == Patched(post, PromotionPatch(r.value.ad_set_id.value, r.value.meta_ad_id.value,
                                                              r.value.meta_creative_id.value, c))
    ensures r.Ok? ==> r.value.meta_ad_id.value != "" && r.value.meta_creative_id.value != ""
    ensures r.Ok? ==> db.posts == PatchPosts(old(db.posts), post.id, PromotionPatch(r.value.ad_set_id.value, r.value.meta_ad_id.value,
                                                                                   r.value.meta_creative_id.value, c))
    ensures r.Ok? ==> GrowsByEmpty(old(db.adSets), resolved)
    ensures r.Ok? ==> db.CategoryByCode(c.category).Some?
    ensures r.Ok? ==> var chosen := SelectAdSet(resolved, restaurant.id, db.CategoryByCode(c.category).value.id,
                                                EventIdentifier(c));
                      && chosen.Some? && chosen.value.id == r.value.ad_set_id.value
                      && PlacedAd(meta.log, restaurant.facebook_page_id, post.meta_post_id, chosen.value.meta_ad_set_id,
                                  AdName(chosen.value.name, post.meta_post_id, stamp),
                                  r.value.meta_creative_id.value, r.value.meta_ad_id.value)
    ensures r.Ok? ==> db.adSets == WithOneMoreAd(resolved, r.value.ad_set_id.value)
    ensures r.Ok? ==> EventStep(old(db.events), db.events, old(EventKnown(db, restaurant.id, c)), restaurant.id, c,
                                r.value.ad_set_id.value)
  {
    ghost var log0 := meta.log;
    var found := ResolveAdSet(db, meta, restaurant, c);
    resolved := db.adSets;
    if found.Err? {
      return Err(found.error), resolved;
    }
    var adSet := found.value;
    ghost var events1 := db.events;
    ghost var category := db.CategoryByCode(c.category).value;
    assert SelectAdSet(resolved, restaurant.id, category.id, EventIdentifier(c)) == Some(adSet);
    ghost var log1 := meta.log;
    r := PlaceAd(db, meta, restaurant, adSet, post, c, stamp);
    LogExtendsTransitive(log0, log1, meta.log);
    assert db.events == events1;
  }

  /** Patching the row just appended leaves the rows before it as they were. */
  lemma PatchNewRow(posts: seq<Post>, row: Post, u: PostPatch)
    requires forall q :: q in posts ==> q.id != row.id
    ensures PatchPosts(posts + [row], row.id, u) == posts + [Patched(row, u)]
  {
    var after := PatchPosts(posts + [row], row.id, u);
    assert forall i :: 0 <= i < |posts| ==> posts[i] in posts && after[i] == posts[i];
  }

  /**
   * `processPost`. A post already stored under this Meta post id, in any
   * status, is answered as it is, with no call and no write. Otherwise one
   * PENDING row is inserted; it becomes ACTIVE, with its ad and with the
   * category and dates of `Categorize`, only when every step succeeded, and
   * stays PENDING, as inserted, when one failed, the failure being passed
   * on. On success the ad sits on the ad set the lookup selects for the
   * category and event identifier, which alone counts one more ad, and the
   * events change only by the event step. The store's invariants hold
   * throughout.
   */
  method ProcessPost(db: Database, meta: MetaClient, restaurant: Restaurant, postId: string, content: string,
                     reply: LlmReply, maxDate: string, defaultEndDate: string, stamp: string)
    returns (r: Result<Post>, ghost resolved: seq<AdSet>)
    requires db.Valid() && db.Consistent()
    modifies db`posts, db`adSets, db`events, db`nextId, meta
    ensures db.Valid() && db.Consistent()
    ensures LogExtends(old(meta.log), meta.log)
    ensures old(db.PostByMetaId(postId)).Some? ==>
              && r == Ok(old(db.PostByMetaId(postId)).value)
              && db.posts == old(db.posts) && db.adSets == old(db.adSets) && db.events == old(db.events)
              && meta.log == old(meta.log) && meta.responses == old(meta.responses)
    ensures old(db.PostByMetaId(postId)).None? && r.Err? ==>
              && db.posts == old(db.posts) + [PendingPost(restaurant.id, postId, content).(id := old(db.nextId))]
              && GrowsByEmpty(old(db.adSets), db.adSets)
    ensures old(db.PostByMetaId(postId)).None? && r.Err? ==>
              var c := Categorize(reply, maxDate, defaultEndDate);
              db.events == old(db.events) ||
              exists id :: EventStep(old(db.events), db.events, old(EventKnown(db, restaurant.id, c)), restaurant.id, c, id)
    ensures old(db.PostByMetaId(postId)).None? && r.Ok? ==> db.posts == old(db.posts) + [r.value]
    ensures old(db.PostByMetaId(postId)).None? && r.Ok? ==>
              && r.value.ad_set_id.Some? && r.value.meta_ad_id.Some? && r.value.meta_creative_id.Some?
              && r.value == Patched(PendingPost(restaurant.id, postId, content).(id := old(db.nextId)),
                                    PromotionPatch(r.value.ad_set_id.value, r.value.meta_ad_id.value, r.value.meta_creative_id.value,
                                                   Categorize(reply, maxDate, defaultEndDate)))
    ensures old(db.PostByMetaId(postId)).None? && r.Ok? ==>
              && r.value.status == Active && Truthy(r.value.meta_ad_id)
    ensures old(db.PostByMetaId(postId)).None? && r.Ok? ==>
              var c := Categorize(reply, maxDate, defaultEndDate);
              && GrowsByEmpty(old(db.adSets), resolved)
              && db.CategoryByCode(c.category).Some?
              && var chosen := SelectAdSet(resolved, restaurant.id, db.CategoryByCode(c.category).value.id,
                                           EventIdentifier(c));
                 && chosen.Some? && chosen.value.id == r.value.ad_set_id.value
                 && PlacedAd(meta.log, restaurant.facebook_page_id, postId, chosen.value.meta_ad_set_id,
                             AdName(chosen.value.name, postId, stamp),
                             r.value.meta_creative_id.value, r.value.meta_ad_id.value)
                 && db.adSets == WithOneMoreAd(resolved, chosen.value.id)
                 && EventStep(old(db.events), db.events, old(EventKnown(db, restaurant.id, c)), restaurant.id, c,
                              chosen.value.id)
  {
    var existing := db.PostByMetaId(postId);
    if existing.Some? {
      return Ok(existing.value), db.adSets;
    }
    ghost var posts0 := db.posts;
    var post := db.CreatePost(PendingPost(restaurant.id, postId, content));
    var categorization := CategorizePost(reply, maxDate, defaultEndDate);
    assert EventKnown(db, restaurant.id, categorization) == old(EventKnown(db, restaurant.id, categorization));
    r, resolved := Promote(db, meta, restaurant, post, categorization, stamp);
    if r.Err? {
      // the row is left PENDING for a retry
      StatusPatchOnlyStatus(post, Pending);
      PatchNewRow(posts0, post, StatusPatch(Pending));
      var _ := db.UpdatePost(post.id, StatusPatch(Pending));
      assert db.posts == posts0 + [post];
    } else {
      PatchNewRow(posts0, post, PromotionPatch(r.value.ad_set_id.value, r.value.meta_ad_id.value,
                                               r.value.meta_creative_id.value, categorization));
      assert db.posts == posts0 + [r.value];
    }
  }

  // ---------------------------------------------------------------------------
  // Status toggles
  // ---------------------------------------------------------------------------

  /**
   * The shared shape of `pausePost` and `activatePost`: an unknown Meta post
   * id is an error; the Meta ad is switched first, only when the post has
   * one, and a failure there leaves the post as it was; then the post takes
   * the new status whatever its status was.
   */
  method SetPostStatus(db: Database, meta: MetaClient, postId: string, status: PostStatus, adStatus: AdStatus)
    returns (r: Result<Post>)
    requires db.Valid()
    modifies db`posts, meta
    ensures db.Valid()
    ensures UniqueMetaPostIds(old(db.posts)) ==> UniqueMetaPostIds(db.posts)
    ensures old(db.PostByMetaId(postId)).None? ==>
              && r == Err("Post not found: " + postId)
              && db.posts == old(db.posts) && meta.log == old(meta.log) && meta.responses == old(meta.responses)
    ensures old(db.PostByMetaId(postId)).Some? && !Truthy(old(db.PostByMetaId(postId)).value.meta_ad_id) ==>
              var p := old(db.PostByMetaId(postId)).value;
              && r == Ok(p.(status := status)) && db.posts == SetStatus(old(db.posts), p.id, status)
              && meta.log == old(meta.log) && meta.responses == old(meta.responses)
    ensures old(db.PostByMetaId(postId)).Some? && Truthy(old(db.PostByMetaId(postId)).value.meta_ad_id) ==>
              var p := old(db.PostByMetaId(postId)).value;
              var reply := Head(old(meta.responses));
              && meta.log == old(meta.log) + [Exchange(UpdateAdStatusCall(p.meta_ad_id.value, adStatus), reply)]
              && meta.responses == Tail(old(meta.responses))
              && (reply.error.Some? ==> r == Err("Meta API Error: " + reply.error.value) && db.posts == old(db.posts))
              && (reply.error.None? ==> r == Ok(p.(status := status)) && db.posts == SetStatus(old(db.posts), p.id, status))
  {
    var found := db.PostByMetaId(postId);
    if found.None? {
      return Err("Post not found: " + postId);
    }
    var post := found.value;
    if Truthy(post.meta_ad_id) {
      var switched := meta.UpdateAdStatus(post.meta_ad_id.value, adStatus);
      if switched.Err? {
        return Err(switched.error);
      }
    }
    ghost var k :| 0 <= k < |db.posts| && db.posts[k] == post;
    StatusPatchOnlyStatus(post, status);
    r := db.UpdatePost(post.id, StatusPatch(status));
    assert r.Ok? && r.value == post.(status := status);
  }

  /** `pausePost`: PAUSED keeps every invariant of the store. */
  method PausePost(db: Database, meta: MetaClient, postId: string) returns (r: Result<Post>)
    requires db.Valid() && db.Consistent()
    modifies db`posts, meta
    ensures db.Valid() && db.Consistent()
    ensures old(db.PostByMetaId(postId)).None? ==> r == Err("Post not found: " + postId)
    ensures r.Ok? ==> r.value.status == Paused && r.value.meta_post_id == postId
    ensures r.Ok? ==> db.posts == SetStatus(old(db.posts), r.value.id, Paused)
    ensures r.Err? ==> db.posts == old(db.posts)
  {
    r := SetPostStatus(db, meta, postId, Paused, AdPaused);
  }

  /**
   * `activatePost` as written: the post becomes ACTIVE even when it has no
   * Meta ad, e.g. a post whose processing failed and was left PENDING.
   */
  method ActivatePost(db: Database, meta: MetaClient, postId: string) returns (r: Result<Post>)
    requires db.Valid()
    modifies db`posts, meta
    ensures db.Valid()
    ensures old(db.PostByMetaId(postId)).None? ==> r == Err("Post not found: " + postId)
    ensures r.Ok? ==> r.value.status == Active && r.value.meta_post_id == postId
    ensures r.Ok? ==> db.posts == SetStatus(old(db.posts), r.value.id, Active)
    ensures r.Ok? ==> r.value.meta_ad_id == old(db.PostByMetaId(postId)).value.meta_ad_id
    ensures r.Err? ==> db.posts == old(db.posts)
  {
    r := SetPostStatus(db, meta, postId, Active, AdActive);
  }

  /** Activating a post that has no ad breaks "no post is ACTIVE without an ad". */
  lemma ActivateWithoutAdBreaksInvariant()
    ensures var p := PendingPost(0, "1234567890_111", "");
            && ActiveHaveAds([p]) && UniqueMetaPostIds([p])
            && !ActiveHaveAds(SetStatus([p], p.id, Active))
  {
    var p := PendingPost(0, "1234567890_111", "");
    assert SetStatus([p], p.id, Active)[0] == p.(status := Active);
  }

  /**
   * `activatePost` as evidently intended: a post without a Meta ad cannot
   * be activated, so no post is ever ACTIVE without an ad.
   */
  method ActivatePostChecked(db: Database, meta: MetaClient, postId: string) returns (r: Result<Post>)
    requires db.Valid() && db.Consistent()
    modifies db`posts, meta
    ensures db.Valid() && db.Consistent()
    ensures old(db.PostByMetaId(postId)).None? ==> r == Err("Post not found: " + postId)
    ensures old(db.PostByMetaId(postId)).Some? && !Truthy(old(db.PostByMetaId(postId)).value.meta_ad_id) ==>
              && r == Err("Post has no ad: " + postId)
              && db.posts == old(db.posts) && meta.log == old(meta.log) && meta.responses == old(meta.responses)
    ensures r.Ok? ==> r.value.status == Active && Truthy(r.value.meta_ad_id) && r.value.meta_post_id == postId
    ensures r.Ok? ==> db.posts == SetStatus(old(db.posts), r.value.id, Active)
    ensures r.Err? ==> db.posts == old(db.posts)
  {
    var found := db.PostByMetaId(postId);
    if found.Some? && !Truthy(found.value.meta_ad_id) {
      return Err("Post has no ad: " + postId);
    }
    r := SetPostStatus(db, meta, postId, Active, AdActive);
  }
}
