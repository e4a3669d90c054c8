/**
 * The Ayrshare webhook (packages/api/src/modules/webhook/webhook.service.ts).
 *
 * A delivery is first checked against the configured shared secret; its
 * payload then yields the Facebook/Instagram post id, the post text and the
 * page the post belongs to. Only when all three checks and the restaurant
 * lookup succeed is the post handed to `processPost`, whose failures are
 * reported in the reply instead of being raised.
 */
module Webhook {
  import opened Common
  import opened Store
  import opened MetaApi
  import opened Classifier
  import Posts

  // ---------------------------------------------------------------------------
  // Payload
  // ---------------------------------------------------------------------------

  /** One entry of `post.postIds`. */
  datatype PlatformPost = PlatformPost(platform: string, postId: string)

  /** `payload.post`: the platform ids and the text (`post.post`), either possibly absent. */
  datatype PayloadPost = PayloadPost(postIds: Option<seq<PlatformPost>>, text: Option<string>)

  /** The fields of the payload the handler reads. */
  datatype Payload = Payload(post: Option<PayloadPost>, profile: Option<string>, refId: Option<string>)

  /** `{ success, message }`. */
  datatype Reply = Reply(success: bool, message: string)

  // ---------------------------------------------------------------------------
  // validateWebhook
  // ---------------------------------------------------------------------------

  /**
   * `validateWebhook`: with a configured secret, only that exact secret is
   * accepted; with none configured (the empty string), every request is.
   */
  function ValidateWebhook(configured: string, secret: Option<string>): (r: Result<()>)
    ensures configured == "" ==> r.Ok?
    ensures configured != "" ==> (r.Ok? <==> secret == Some(configured))
    ensures r.Err? ==> r.error == "Invalid webhook secret"
  {
    if configured != "" && secret != Some(configured) then Err("Invalid webhook secret") else Ok(())
  }

  // ---------------------------------------------------------------------------
  // Extraction
  // ---------------------------------------------------------------------------

  predicate IsSocial(p: PlatformPost) {
    p.platform == "facebook" || p.platform == "instagram"
  }

  /** `postIds.find(p => p.platform === 'facebook' || p.platform === 'instagram')`. */
  function FindSocial(ids: seq<PlatformPost>): (r: Option<PlatformPost>)
    ensures r.None? <==> forall i :: 0 <= i < |ids| ==> !IsSocial(ids[i])
    ensures r.Some? ==> exists i :: 0 <= i < |ids| && ids[i] == r.value && IsSocial(ids[i]) &&
                                    forall j :: 0 <= j < i ==> !IsSocial(ids[j])
  {
    if ids == [] then None
    else if IsSocial(ids[0]) then Some(ids[0])
    else
      var r := FindSocial(ids[1..]);
      assert r.Some? ==> exists i :: 0 <= i < |ids[1..]| && ids[1..][i] == r.value && IsSocial(ids[1..][i]) &&
                                   forall j :: 0 <= j < i ==> !IsSocial(ids[1..][j]);
      assert r.Some? ==> exists i :: 1 <= i < |ids| && ids[i] == r.value && IsSocial(ids[i]) &&
                                   forall j :: 1 <= j < i ==> !IsSocial(ids[j]);
      r
  }

  /**
   * The post id the handler works with: that of the first Facebook or
   * Instagram entry, when it is not empty. A later entry is never consulted,
   * even when the first one's id is empty.
   */
  function PostIdOf(payload: Payload): (r: Option<string>)
    ensures r.Some? ==> r.value != ""
  {
    if payload.post.None? || payload.post.value.postIds.None? then None
    else
      var info := FindSocial(payload.post.value.postIds.value);
      if info.Some? && info.value.postId != "" then Some(info.value.postId) else None
  }

  /** `payload.post?.post || ''`. */
  function ContentOf(payload: Payload): (content: string)
    ensures payload.post.Some? && Truthy(payload.post.value.text) ==> content == payload.post.value.text.value
    ensures !(payload.post.Some? && Truthy(payload.post.value.text)) ==> content == ""
  {
    if payload.post.Some? && Truthy(payload.post.value.text) then payload.post.value.text.value else ""
  }

  /** `payload.refId || payload.profile`, absent when that is empty or undefined. */
  function PageIdOf(payload: Payload): (r: Option<string>)
    ensures r.Some? <==> Truthy(payload.refId) || Truthy(payload.profile)
    ensures Truthy(payload.refId) ==> r == payload.refId
    ensures !Truthy(payload.refId) && Truthy(payload.profile) ==> r == payload.profile
  {
    var pageId := if Truthy(payload.refId) then payload.refId else payload.profile;
    if Truthy(pageId) then pageId else None
  }

  /** What the handler needs from a payload. */
  datatype Extracted = Extracted(postId: string, content: string, pageId: string)

  /** The early exits of the handler, in its order, and what it proceeds with otherwise. */
  function Extract(payload: Payload): (r: Result<Extracted>)
    ensures PostIdOf(payload).None? ==> r == Err("No valid post ID found")
    ensures PostIdOf(payload).Some? && PageIdOf(payload).None? ==> r == Err("No page identifier found")
    ensures r.Ok? <==> PostIdOf(payload).Some? && PageIdOf(payload).Some?
    ensures r.Ok? ==> r.value.postId != "" && r.value.pageId != ""
    ensures r.Ok? ==> r.value.content == ContentOf(payload)
  {
    var postId := PostIdOf(payload);
    if postId.None? then Err("No valid post ID found")
    else
      var pageId := PageIdOf(payload);
      if pageId.None? then Err("No page identifier found")
      else Ok(Extracted(postId.value, ContentOf(payload), pageId.value))
  }

  /** A payload whose first social entry has an empty id is rejected though a later entry has one. */
  lemma FirstSocialEntryDecides(later: string)
    ensures var ids := [PlatformPost("facebook", ""), PlatformPost("instagram", later)];
            Extract(Payload(Some(PayloadPost(Some(ids), None)), None, Some("page"))) == Err("No valid post ID found")
  {
    var ids := [PlatformPost("facebook", ""), PlatformPost("instagram", later)];
    assert IsSocial(ids[0]);
    assert FindSocial(ids) == Some(ids[0]);
  }

  // ---------------------------------------------------------------------------
  // handleAyrshareWebhook
  // ---------------------------------------------------------------------------

  /**
   * `handleAyrshareWebhook`. Nothing is written and Meta is not called
   * unless the payload has a post id and a page id and exactly one
   * restaurant has that page; then the post is processed, and a failure of
   * that becomes an unsuccessful reply. The LLM reply and the dates are the
   * values `processPost` would obtain from the model and the clock.
   */
  method HandleAyrshareWebhook(db: Database, meta: MetaClient, payload: Payload, reply: LlmReply,
                               maxDate: string, defaultEndDate: string, stamp: string)
    returns (resp: Reply)
    requires db.Valid() && db.Consistent()
    modifies db`posts, db`adSets, db`events, db`nextId, meta
    ensures db.Valid() && db.Consistent()
    ensures LogExtends(old(meta.log), meta.log)
    ensures Extract(payload).Err? ==> resp == Reply(false, Extract(payload).error)
    ensures Extract(payload).Ok? && old(db.RestaurantByPageId(Extract(payload).value.pageId)).None? ==>
              resp == Reply(false, "Restaurant not found for page: " + Extract(payload).value.pageId)
    ensures Extract(payload).Err? || old(db.RestaurantByPageId(Extract(payload).value.pageId)).None? ==>
              && db.posts == old(db.posts) && db.adSets == old(db.adSets) && db.events == old(db.events)
              && db.nextId == old(db.nextId) && meta.log == old(meta.log) && meta.responses == old(meta.responses)
    ensures resp.success ==>
              && Extract(payload).Ok? && old(db.RestaurantByPageId(Extract(payload).value.pageId)).Some?
              && resp.message == "Post " + Extract(payload).value.postId + " processed successfully"
              && exists i :: 0 <= i < |db.posts| && db.posts[i].meta_post_id == Extract(payload).value.postId
    ensures !resp.success && Extract(payload).Ok? && old(db.RestaurantByPageId(Extract(payload).value.pageId)).Some? ==>
              StartsWith(resp.message, "Processing failed: Error: ")
    ensures Extract(payload).Ok? && old(db.RestaurantByPageId(Extract(payload).value.pageId)).Some? &&
            old(db.PostByMetaId(Extract(payload).value.postId)).Some? ==>
              && resp.success
              && db.posts == old(db.posts) && db.adSets == old(db.adSets) && db.events == old(db.events)
              && meta.log == old(meta.log) && meta.responses == old(meta.responses)
    ensures Extract(payload).Ok? && old(db.RestaurantByPageId(Extract(payload).value.pageId)).Some? &&
            old(db.PostByMetaId(Extract(payload).value.postId)).None? ==>
              && |db.posts| == |old(db.posts)| + 1 && db.posts[..|old(db.posts)|] == old(db.posts)
              && var row := db.posts[|old(db.posts)|];
                 && row.restaurant_id == old(db.RestaurantByPageId(Extract(payload).value.pageId)).value.id
                 && row.meta_post_id == Extract(payload).value.postId
                 && row.content == ContentOf(payload)
                 && (row.status == Active <==> resp.success)
  {
    var extracted := Extract(payload);
    if extracted.Err? {
      return Reply(false, extracted.error);
    }
    var postId, content, pageId := extracted.value.postId, extracted.value.content, extracted.value.pageId;
    var restaurant := db.RestaurantByPageId(pageId);
    if restaurant.None? {
      return Reply(false, "Restaurant not found for page: " + pageId);
    }
    var r, _ := Posts.ProcessPost(db, meta, restaurant.value, postId, content, reply, maxDate, defaultEndDate, stamp);
    if r.Ok? {
      assert r.value in db.posts && r.value.meta_post_id == postId;
      resp := Reply(true, "Post " + postId + " processed successfully");
    } else {
      resp := Reply(false, "Processing failed: Error: " + r.error);
      assert resp.message == "Processing failed: Error: " + r.error;
    }
  }
}
