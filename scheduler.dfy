/**
 * The daily expiration sweep (packages/api/src/modules/scheduler/scheduler.service.ts).
 *
 * `ExpirePosts` fetches the ACTIVE posts whose promotion has ended, then for
 * each of them, in order, pauses its Meta ad when it has one and marks it
 * EXPIRED; a failure on one post is counted and reported, and the sweep goes
 * on with the next. The sweep never fails: a failed fetch becomes a single
 * "Job error" entry. Whether the fetch fails, and the text the thrown value
 * renders to, is a parameter; the cron trigger is not modelled.
 *
 * The loop is specified by `Sweep`, a fold over the expired posts, and the
 * promises of the source are proved about `Sweep`.
 */
module Scheduler {
  import opened Common
  import opened Store
  import opened MetaApi

  datatype ExpireResult = ExpireResult(total: nat, success: nat, failed: nat, errors: seq<string>)

  /** What the sweep has done after some of the posts: its counters, the posts it expired and its Meta traffic. */
  datatype SweepState = SweepState(
    success: nat,
    failed: nat,
    errors: seq<string>,
    expired: seq<Id>,
    calls: seq<Exchange>,
    responses: seq<Response>)

  /** The entry pushed for a post whose pause failed: the thrown Error rendered by the template string. */
  function FailureMessage(p: Post, reply: Response): string
    requires reply.error.Some?
  {
    "Failed to expire " + p.meta_post_id + ": Error: " + RequestOutcome(reply).error
  }

  /** One iteration of the loop: pause the ad if there is one, then mark the post EXPIRED unless the pause failed. */
  function ExpireOne(s: SweepState, p: Post): (t: SweepState)
    ensures t.success + t.failed == s.success + s.failed + 1
  {
    if !Truthy(p.meta_ad_id) then
      s.(success := s.success + 1, expired := s.expired + [p.id])
    else
      var reply := Head(s.responses);
      var sent := s.(calls := s.calls + [Exchange(UpdateAdStatusCall(p.meta_ad_id.value, AdPaused), reply)],
                     responses := Tail(s.responses));
      if reply.error.Some? then
        sent.(failed := s.failed + 1, errors := s.errors + [FailureMessage(p, reply)])
      else
        sent.(success := s.success + 1, expired := s.expired + [p.id])
  }

  /** The sweep over `posts`, in order, with Meta answering from `responses`. */
  function Sweep(posts: seq<Post>, responses: seq<Response>): SweepState
    decreases |posts|
  {
    if posts == [] then SweepState(0, 0, [], [], [], responses)
    else ExpireOne(Sweep(posts[..|posts| - 1], responses), posts[|posts| - 1])
  }

  /** The number of posts that have a Meta ad. */
  function WithAds(posts: seq<Post>): (n: nat)
    ensures n <= |posts|
    decreases |posts|
  {
    if posts == [] then 0
    else WithAds(posts[..|posts| - 1]) + (if Truthy(posts[|posts| - 1].meta_ad_id) then 1 else 0)
  }

  /** The replies left after k requests. */
  function Drop(rs: seq<Response>, k: nat): seq<Response> {
    if k >= |rs| then [] else rs[k..]
  }

  /** The reply to the request numbered k (from 0). */
  function NthResponse(rs: seq<Response>, k: nat): Response {
    if k < |rs| then rs[k] else NO_RESPONSE
  }

  /** Post i is expired: it has no ad, or the pause of its ad (the request numbered by the ads before it) succeeded. */
  predicate PauseSucceeded(posts: seq<Post>, responses: seq<Response>, i: nat)
    requires i < |posts|
  {
    !Truthy(posts[i].meta_ad_id) || NthResponse(responses, WithAds(posts[..i])).error.None?
  }

  /** The posts after `updatePost(id, { status: 'EXPIRED' })` for each id in turn. */
  function MarkExpired(posts: seq<Post>, ids: seq<Id>): (r: seq<Post>)
    ensures |r| == |posts|
    ensures forall k :: 0 <= k < |posts| ==> r[k].id == posts[k].id
    decreases |ids|
  {
    if ids == [] then posts else SetStatus(MarkExpired(posts, ids[..|ids| - 1]), ids[|ids| - 1], Expired)
  }

  // ---------------------------------------------------------------------------
  // What the sweep promises
  // ---------------------------------------------------------------------------

  /** Every post is counted once, as a success or as a failure, and each failure has its error entry. */
  lemma {:induction false} SweepCounts(posts: seq<Post>, responses: seq<Response>)
    ensures var s := Sweep(posts, responses);
            && s.success + s.failed == |posts|
            && |s.errors| == s.failed
            && |s.expired| == s.success
  {
    if posts != [] {
      SweepCounts(posts[..|posts| - 1], responses);
    }
  }

  /**
   * Exactly one Meta request per post with an ad, whatever happened to the
   * posts before it: a failure never stops the sweep. Every request is a pause.
   */
  lemma {:induction false} SweepCalls(posts: seq<Post>, responses: seq<Response>)
    ensures var s := Sweep(posts, responses);
            && |s.calls| == WithAds(posts)
            && s.responses == Drop(responses, WithAds(posts))
            && forall e :: e in s.calls ==> e.call.UpdateAdStatusCall? && e.call.status == AdPaused
  {
    if posts != [] {
      var init := posts[..|posts| - 1];
      SweepCalls(init, responses);
      var k := WithAds(init);
      assert Head(Drop(responses, k)) == NthResponse(responses, k);
      assert Tail(Drop(responses, k)) == Drop(responses, k + 1);
    }
  }

  /** The sweep expires only posts it was given. */
  lemma {:induction false} SweepExpiresGiven(posts: seq<Post>, responses: seq<Response>)
    ensures forall id :: id in Sweep(posts, responses).expired ==> exists j :: 0 <= j < |posts| && posts[j].id == id
  {
    if posts != [] {
      var init := posts[..|posts| - 1];
      SweepExpiresGiven(init, responses);
      forall id | id in Sweep(posts, responses).expired
        ensures exists j :: 0 <= j < |posts| && posts[j].id == id
      {
        if id in Sweep(init, responses).expired {
          var j :| 0 <= j < |init| && init[j].id == id;
          assert posts[j] == init[j];
        } else {
          assert posts[|posts| - 1].id == id;
        }
      }
    }
  }

  /** One iteration expires its post exactly when the post has no ad or the pause got a reply without error. */
  lemma ExpireOneExpired(s: SweepState, p: Post)
    ensures ExpireOne(s, p).expired ==
              if !Truthy(p.meta_ad_id) || Head(s.responses).error.None? then s.expired + [p.id] else s.expired
  {
  }

  /** The last post's id is new to the sweep so far, so it is expired exactly when its own pause succeeded. */
  lemma SweepLast(posts: seq<Post>, responses: seq<Response>)
    requires posts != [] && IdsDistinct(Ids(posts, PostId))
    ensures var n := |posts| - 1;
            posts[n].id in Sweep(posts, responses).expired <==> PauseSucceeded(posts, responses, n)
  {
    var n := |posts| - 1;
    var init := posts[..n];
    var s := Sweep(init, responses);
    SweepCalls(init, responses);
    assert Head(s.responses) == NthResponse(responses, WithAds(init));
    ExpireOneExpired(s, posts[n]);
    SweepExpiresGiven(init, responses);
    forall j | 0 <= j < n ensures init[j].id != posts[n].id {
      assert Ids(posts, PostId)[j] != Ids(posts, PostId)[n];
    }
  }

  /** An earlier post keeps the outcome it had before the last post was handled. */
  lemma SweepEarlier(posts: seq<Post>, responses: seq<Response>, i: nat)
    requires i < |posts| - 1 && IdsDistinct(Ids(posts, PostId))
    requires var init := posts[..|posts| - 1];
             posts[i].id in Sweep(init, responses).expired <==> PauseSucceeded(init, responses, i)
    ensures posts[i].id in Sweep(posts, responses).expired <==> PauseSucceeded(posts, responses, i)
  {
    var n := |posts| - 1;
    var init := posts[..n];
    ExpireOneExpired(Sweep(init, responses), posts[n]);
    assert init[..i] == posts[..i];
    assert Ids(posts, PostId)[i] != Ids(posts, PostId)[n];
  }

  /**
   * Post i is expired exactly when it has no ad or the pause of its own ad
   * succeeded: the outcome for one post depends on its own reply only.
   */
  lemma {:induction false} SweepIsolation(posts: seq<Post>, responses: seq<Response>)
    requires IdsDistinct(Ids(posts, PostId))
    ensures forall i :: 0 <= i < |posts| ==>
              (posts[i].id in Sweep(posts, responses).expired <==> PauseSucceeded(posts, responses, i))
  {
    if posts != [] {
      var n := |posts| - 1;
      assert Ids(posts[..n], PostId) == Ids(posts, PostId)[..n];
      SweepIsolation(posts[..n], responses);
      forall i | 0 <= i < n
        ensures posts[i].id in Sweep(posts, responses).expired <==> PauseSucceeded(posts, responses, i)
      {
        SweepEarlier(posts, responses, i);
      }
      SweepLast(posts, responses);
    }
  }

  /** The sweep over one more post is one more iteration. */
  lemma SweepStep(posts: seq<Post>, responses: seq<Response>, i: nat)
    requires i < |posts|
    ensures Sweep(posts[..i + 1], responses) == ExpireOne(Sweep(posts[..i], responses), posts[i])
  {
    assert posts[..i + 1][..i] == posts[..i];
  }

  /** Marking ids expired changes exactly the posts with those ids, and only their status. */
  lemma {:induction false} MarkExpiredRows(posts: seq<Post>, ids: seq<Id>)
    ensures forall k :: 0 <= k < |posts| ==>
              MarkExpired(posts, ids)[k] == if posts[k].id in ids then posts[k].(status := Expired) else posts[k]
  {
    if ids != [] {
      MarkExpiredRows(posts, ids[..|ids| - 1]);
    }
  }

  /** The expired posts are rows of the table, so their ids are distinct too. */
  lemma {:induction false} FilteredIdsDistinct(posts: seq<Post>, f: Post -> bool)
    requires IdsDistinct(Ids(posts, PostId))
    ensures IdsDistinct(Ids(Filter(posts, f), PostId))
  {
    if posts != [] {
      var rest := posts[1..];
      assert posts == [posts[0]] + rest;
      IdsDistinctCons(posts[0], rest, PostId);
      FilteredIdsDistinct(rest, f);
      if f(posts[0]) {
        IdsDistinctCons(posts[0], Filter(rest, f), PostId);
      }
    }
  }

  /** Hence `ExpiredOnlyAfterPause` and `SweepIsolation` apply to what `getExpiredPosts` returns. */
  lemma ExpiredPostsDistinct(db: Database, today: string)
    requires db.Valid()
    ensures IdsDistinct(Ids(db.ExpiredPostsAsOf(today), PostId))
  {
    FilteredIdsDistinct(db.posts, (p: Post) => IsExpired(p, today));
  }

  /**
   * A post of the table is marked EXPIRED by the sweep only if it was among
   * the expired posts and it had no ad or the pause of its ad succeeded.
   */
  lemma ExpiredOnlyAfterPause(posts: seq<Post>, expired: seq<Post>, responses: seq<Response>)
    requires IdsDistinct(Ids(expired, PostId))
    ensures forall k :: 0 <= k < |posts| && MarkExpired(posts, Sweep(expired, responses).expired)[k] != posts[k] ==>
              exists i :: 0 <= i < |expired| && expired[i].id == posts[k].id && PauseSucceeded(expired, responses, i)
  {
    var s := Sweep(expired, responses);
    MarkExpiredRows(posts, s.expired);
    SweepExpiresGiven(expired, responses);
    SweepIsolation(expired, responses);
  }

  // ---------------------------------------------------------------------------
  // expirePosts
  // ---------------------------------------------------------------------------

  /** Expiring ids one more id is one more status update. */
  lemma MarkExpiredStep(posts: seq<Post>, ids: seq<Id>, id: Id)
    ensures MarkExpired(posts, ids + [id]) == SetStatus(MarkExpired(posts, ids), id, Expired)
  {
    assert (ids + [id])[..|ids|] == ids;
  }

  /**
   * The body of the loop's `try` and `catch`: pause the ad when the post has
   * one, then mark the post EXPIRED; a failed pause is caught before the
   * update. It performs exactly the iteration `ExpireOne` describes, from the
   * sweep state `st` reached so far.
   */
  method ExpirePost(db: Database, meta: MetaClient, post: Post,
                    ghost posts0: seq<Post>, ghost log0: seq<Exchange>, ghost st: SweepState)
    returns (r: Result<()>)
    requires db.Valid() && db.Consistent()
    requires exists k :: 0 <= k < |db.posts| && db.posts[k].id == post.id
    requires db.posts == MarkExpired(posts0, st.expired)
    requires meta.log == log0 + st.calls && meta.responses == st.responses
    modifies db`posts, meta
    ensures db.Valid() && db.Consistent()
    ensures db.posts == MarkExpired(posts0, ExpireOne(st, post).expired)
    ensures meta.log == log0 + ExpireOne(st, post).calls && meta.responses == ExpireOne(st, post).responses
    ensures r.Ok? ==> ExpireOne(st, post).success == st.success + 1 && ExpireOne(st, post).failed == st.failed &&
                      ExpireOne(st, post).errors == st.errors
    ensures r.Err? ==> ExpireOne(st, post).success == st.success && ExpireOne(st, post).failed == st.failed + 1 &&
                       ExpireOne(st, post).errors == st.errors + ["Failed to expire " + post.meta_post_id + ": Error: " + r.error]
  {
    if Truthy(post.meta_ad_id) {
      ghost var e := Exchange(UpdateAdStatusCall(post.meta_ad_id.value, AdPaused), Head(st.responses));
      var switched := meta.UpdateAdStatus(post.meta_ad_id.value, AdPaused);
      AppendAssociative(log0, st.calls, [e]);
      if switched.Err? {
        return Err(switched.error);
      }
    }
    var updated := db.UpdatePost(post.id, StatusPatch(Expired));
    MarkExpiredStep(posts0, st.expired, post.id);
    r := Ok(());
  }

  /**
   * The `for` loop of `expirePosts` over the posts it fetched: its counters,
   * Meta traffic and store updates are those of `Sweep`.
   */
  method SweepPosts(db: Database, meta: MetaClient, expired: seq<Post>) returns (result: ExpireResult)
    requires db.Valid() && db.Consistent()
    requires forall p :: p in expired ==> p in db.posts
    modifies db`posts, meta
    ensures db.Valid() && db.Consistent()
    ensures var s := Sweep(expired, old(meta.responses));
            && result == ExpireResult(|expired|, s.success, s.failed, s.errors)
            && meta.log == old(meta.log) + s.calls && meta.responses == s.responses
            && db.posts == MarkExpired(old(db.posts), s.expired)
  {
    ghost var posts0, log0, responses0 := db.posts, meta.log, meta.responses;
    var success, failed, errors := 0, 0, [];
    ghost var st := Sweep([], responses0);
    for i := 0 to |expired|
      invariant st == Sweep(expired[..i], responses0)
      invariant success == st.success && failed == st.failed && errors == st.errors
      invariant meta.log == log0 + st.calls && meta.responses == st.responses
      invariant db.posts == MarkExpired(posts0, st.expired)
      invariant db.Valid() && db.Consistent()
    {
      var post := expired[i];
      SweepStep(expired, responses0, i);
      assert post in posts0;
      ghost var k :| 0 <= k < |posts0| && posts0[k] == post;
      assert db.posts[k].id == post.id;
      var outcome := ExpirePost(db, meta, post, posts0, log0, st);
      if outcome.Ok? {
        success := success + 1;
      } else {
        failed := failed + 1;
        errors := errors + ["Failed to expire " + post.meta_post_id + ": Error: " + outcome.error];
      }
      st := ExpireOne(st, post);
    }
    assert expired[..|expired|] == expired;
    result := ExpireResult(|expired|, success, failed, errors);
  }

  /**
   * `expirePosts`. With a failed fetch: total 0 and one "Job error" entry,
   * nothing else done. Otherwise the result and the new state are those of
   * `Sweep` over the expired posts; the store's invariants hold on.
   */
  method ExpirePosts(db: Database, meta: MetaClient, today: string, fetchError: Option<string>)
    returns (result: ExpireResult)
    requires db.Valid() && db.Consistent()
    modifies db`posts, meta
    ensures db.Valid() && db.Consistent()
    ensures fetchError.Some? ==>
              && result == ExpireResult(0, 0, 0, ["Job error: " + fetchError.value])
              && db.posts == old(db.posts) && meta.log == old(meta.log) && meta.responses == old(meta.responses)
    ensures fetchError.None? ==>
              var expired := old(db.ExpiredPostsAsOf(today));
              var s := Sweep(expired, old(meta.responses));
              && result == ExpireResult(|expired|, s.success, s.failed, s.errors)
              && meta.log == old(meta.log) + s.calls && meta.responses == s.responses
              && db.posts == MarkExpired(old(db.posts), s.expired)
  {
    if fetchError.Some? {
      return ExpireResult(0, 0, 0, ["Job error: " + fetchError.value]);
    }
    var expired := db.ExpiredPostsAsOf(today);
    result := SweepPosts(db, meta, expired);
  }
}
