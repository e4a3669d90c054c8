/**
 * Restaurants (packages/api/src/modules/restaurants/restaurants.service.ts):
 * the URL slug generated from a restaurant's name, and the two operations
 * that open the restaurant's Meta campaign, `create` and `retryCampaign`.
 */
module Restaurants {
  import opened Common
  import opened Store
  import opened MetaApi

  // ---------------------------------------------------------------------------
  // generateSlug
  // ---------------------------------------------------------------------------

  /** `toLowerCase` on ASCII letters and the Polish capitals; other characters are kept. */
  function LowerChar(c: char): (d: char)
    ensures 'A' <= c <= 'Z' ==> d as int == c as int + 32
    ensures !('A' <= c <= 'Z') && PolishCapital(c) == None ==> d == c
  {
    if 'A' <= c <= 'Z' then (c as int + 32) as char
    else if PolishCapital(c).Some? then PolishCapital(c).value
    else c
  }

  /** The lower-case letter of a Polish capital. */
  function PolishCapital(c: char): Option<char> {
    if c == '\U{104}' then Some('\U{105}')        // Ą
    else if c == '\U{118}' then Some('\U{119}')   // Ę
    else if c == '\U{D3}' then Some('\U{F3}')     // Ó
    else if c == '\U{15A}' then Some('\U{15B}')   // Ś
    else if c == '\U{141}' then Some('\U{142}')   // Ł
    else if c == '\U{17B}' then Some('\U{17C}')   // Ż
    else if c == '\U{179}' then Some('\U{17A}')   // Ź
    else if c == '\U{106}' then Some('\U{107}')   // Ć
    else if c == '\U{143}' then Some('\U{144}')   // Ń
    else None
  }

  /** The eight `replace` calls for Polish letters, each covering both cases. */
  function FoldDiacritic(c: char): (d: char)
    ensures IsSlugChar(c) ==> d == c
    ensures c == '-' ==> d == c
  {
    if c == '\U{105}' || c == '\U{104}' then 'a'
    else if c == '\U{119}' || c == '\U{118}' then 'e'
    else if c == '\U{F3}' || c == '\U{D3}' then 'o'
    else if c == '\U{15B}' || c == '\U{15A}' then 's'
    else if c == '\U{142}' || c == '\U{141}' then 'l'
    else if c == '\U{17C}' || c == '\U{17B}' || c == '\U{17A}' || c == '\U{179}' then 'z'
    else if c == '\U{107}' || c == '\U{106}' then 'c'
    else if c == '\U{144}' || c == '\U{143}' then 'n'
    else c
  }

  /** `[a-z0-9]`. */
  predicate IsSlugChar(c: char) {
    'a' <= c <= 'z' || '0' <= c <= '9'
  }

  /** Lower-casing followed by the diacritic replacements, character by character. */
  function Normalize(s: string): (r: string)
    ensures |r| == |s|
    ensures forall i :: 0 <= i < |s| ==> r[i] == FoldDiacritic(LowerChar(s[i]))
  {
    if s == [] then [] else [FoldDiacritic(LowerChar(s[0]))] + Normalize(s[1..])
  }

  /** The rest of s after its leading run of characters outside `[a-z0-9]`. */
  function DropRun(s: string): (r: string)
    ensures |r| <= |s| && r == s[|s| - |r|..]
    ensures r != [] ==> IsSlugChar(r[0])
    ensures Letters(r) == Letters(s)
  {
    if s != [] && !IsSlugChar(s[0]) then DropRun(s[1..]) else s
  }

  /** `replace(/[^a-z0-9]+/g, '-')`: each maximal run of other characters becomes one '-'. */
  function Collapse(s: string): (r: string)
    ensures r == [] <==> s == []
    ensures s != [] && IsSlugChar(s[0]) ==> r[0] == s[0]
    ensures s != [] && !IsSlugChar(s[0]) ==> r[0] == '-'
    decreases |s|
  {
    if s == [] then []
    else if IsSlugChar(s[0]) then [s[0]] + Collapse(s[1..])
    else "-" + Collapse(DropRun(s[1..]))
  }

  /** `replace(/^-|-$/g, '')`: one leading and one trailing '-' removed. */
  function Trim(s: string): (r: string)
    ensures |r| <= |s|
  {
    var t := if s != [] && s[0] == '-' then s[1..] else s;
    if t != [] && t[|t| - 1] == '-' then t[..|t| - 1] else t
  }

  /** `generateSlug(name)`. */
  function GenerateSlug(name: string): string {
    Trim(Collapse(Normalize(name)))
  }

  // ---------------------------------------------------------------------------
  // What a slug is
  // ---------------------------------------------------------------------------

  predicate SlugCharset(s: string) {
    forall i :: 0 <= i < |s| ==> IsSlugChar(s[i]) || s[i] == '-'
  }

  predicate NoDoubleHyphen(s: string) {
    forall i :: 0 <= i < |s| - 1 ==> !(s[i] == '-' && s[i + 1] == '-')
  }

  /** Only `[a-z0-9-]`, no "--", and no '-' at either end. */
  predicate IsSlug(s: string) {
    SlugCharset(s) && NoDoubleHyphen(s) && (s != [] ==> s[0] != '-' && s[|s| - 1] != '-')
  }

  /** The letters and digits of s, in order. */
  function Letters(s: string): (r: string)
    ensures |r| <= |s|
  {
    if s == [] then [] else (if IsSlugChar(s[0]) then [s[0]] else []) + Letters(s[1..])
  }

  lemma {:induction false} LettersAppend(a: string, b: string)
    ensures Letters(a + b) == Letters(a) + Letters(b)
  {
    if a != [] {
      assert (a + b)[1..] == a[1..] + b;
      LettersAppend(a[1..], b);
    } else {
      assert a + b == b;
    }
  }

  /** Putting a letter, or a '-' before something that does not start with '-', in front keeps the shape. */
  lemma PrependShape(c: char, t: string)
    requires SlugCharset(t) && NoDoubleHyphen(t)
    requires IsSlugChar(c) || (c == '-' && (t == [] || t[0] != '-'))
    ensures SlugCharset([c] + t) && NoDoubleHyphen([c] + t)
  {
    var s := [c] + t;
    assert forall i :: 1 <= i < |s| ==> s[i] == t[i - 1];
  }

  /** Collapsing runs yields `[a-z0-9-]` only, never "--", and keeps every letter and digit in order. */
  lemma {:induction false} CollapseShape(s: string)
    ensures SlugCharset(Collapse(s)) && NoDoubleHyphen(Collapse(s))
    ensures Letters(Collapse(s)) == Letters(s)
    decreases |s|
  {
    if s != [] {
      if IsSlugChar(s[0]) {
        var t := Collapse(s[1..]);
        CollapseShape(s[1..]);
        PrependShape(s[0], t);
        LettersAppend([s[0]], t);
        assert Letters([s[0]]) == [s[0]];
      } else {
        var d := DropRun(s[1..]);
        var t := Collapse(d);
        CollapseShape(d);
        PrependShape('-', t);
        LettersAppend("-", t);
        assert Letters("-") == [];
      }
    }
  }

  /** Trimming keeps the charset and the absence of "--" and leaves no '-' at either end. */
  lemma TrimShape(s: string)
    requires SlugCharset(s) && NoDoubleHyphen(s)
    ensures IsSlug(Trim(s))
    ensures Letters(Trim(s)) == Letters(s)
  {
    var t := if s != [] && s[0] == '-' then s[1..] else s;
    if s != [] && s[0] == '-' {
      assert s == "-" + t;
      LettersAppend("-", t);
      assert t != [] ==> t[0] != '-' by {
        if t != [] { assert s[1] == t[0]; }
      }
    }
    assert SlugCharset(t) && NoDoubleHyphen(t);
    if t != [] && t[|t| - 1] == '-' {
      var u := t[..|t| - 1];
      assert t == u + "-";
      LettersAppend(u, "-");
      assert u != [] ==> u[|u| - 1] != '-' by {
        if u != [] { assert t[|t| - 2] == u[|u| - 1]; }
      }
    }
  }

  /**
   * A generated slug holds only `a-z`, `0-9` and '-', never "--", no '-' at
   * either end, and the letters and digits of the lower-cased, diacritic-free
   * name in their order.
   */
  lemma GenerateSlugShape(name: string)
    ensures IsSlug(GenerateSlug(name))
    ensures Letters(GenerateSlug(name)) == Letters(Normalize(name))
  {
    CollapseShape(Normalize(name));
    TrimShape(Collapse(Normalize(name)));
  }

  /** Normalising a slug changes nothing. */
  lemma NormalizeSlug(s: string)
    requires SlugCharset(s)
    ensures Normalize(s) == s
  {
  }

  /** Without its first character a slug body keeps its charset and its lack of "--". */
  lemma TailShape(s: string)
    requires s != [] && SlugCharset(s) && NoDoubleHyphen(s)
    ensures SlugCharset(s[1..]) && NoDoubleHyphen(s[1..])
  {
    assert forall i :: 0 <= i < |s| - 1 ==> s[1..][i] == s[i + 1];
  }

  /** A slug has no run longer than one non-letter, so collapsing it changes nothing. */
  lemma {:induction false} CollapseSlug(s: string)
    requires SlugCharset(s) && NoDoubleHyphen(s) && (s != [] ==> s[|s| - 1] != '-')
    ensures Collapse(s) == s
    decreases |s|
  {
    if s != [] {
      var rest := s[1..];
      TailShape(s);
      assert rest != [] ==> rest[|rest| - 1] == s[|s| - 1];
      CollapseSlug(rest);
      if IsSlugChar(s[0]) {
        assert Collapse(s) == [s[0]] + rest;
      } else {
        assert s[0] == '-';
        assert rest != [] && rest[0] == s[1];
        assert DropRun(rest) == rest;
        assert Collapse(s) == "-" + rest;
      }
    }
  }

  /** `generateSlug` is the identity on slugs, and so idempotent. */
  lemma GenerateSlugIdempotent(name: string)
    ensures GenerateSlug(GenerateSlug(name)) == GenerateSlug(name)
  {
    var s := GenerateSlug(name);
    GenerateSlugShape(name);
    NormalizeSlug(s);
    CollapseSlug(s);
  }

  /** The Polish letters of a city name lose their diacritics and their case. */
  lemma PolishLettersFold()
    ensures GenerateSlug("\U{141}\U{F3}d\U{17A}") == "lodz"
  {
    var name := "\U{141}\U{F3}d\U{17A}";
    assert Normalize(name) == "lodz";
    CollapseSlug("lodz");
  }

  // ---------------------------------------------------------------------------
  // create / retryCampaign
  // ---------------------------------------------------------------------------

  /** The name the campaign is created under: the restaurant's numeric id in decimal. */
  function CampaignName(r: Restaurant): string {
    NatToString(r.rid)
  }

  /** `dto.slug || generateSlug(dto.name)`. */
  function ChosenSlug(slug: string, name: string): (s: string)
    ensures slug != "" ==> s == slug
    ensures slug == "" ==> IsSlug(s) && s == GenerateSlug(name)
  {
    GenerateSlugShape(name);
    if slug != "" then slug else GenerateSlug(name)
  }

  /**
   * `create(dto)`: the row is stored with the chosen slug and with the given
   * campaign id (an empty one stored as null). A campaign is created only
   * when none was given, and its id (null when Meta failed) is then written
   * to the row.
   */
  method Create(db: Database, meta: MetaClient, dto: Restaurant) returns (r: Restaurant)
    requires db.Valid()
    modifies db`restaurants, db`nextId, meta
    ensures db.Valid()
    ensures |db.restaurants| == |old(db.restaurants)| + 1 && db.restaurants[..|old(db.restaurants)|] == old(db.restaurants)
    ensures r == db.restaurants[|old(db.restaurants)|] && r.id == old(db.nextId)
    ensures r.slug == ChosenSlug(dto.slug, dto.name) && r.rid == dto.rid && r.name == dto.name
    ensures Truthy(dto.meta_campaign_id) ==> r.meta_campaign_id == dto.meta_campaign_id
    ensures Truthy(dto.meta_campaign_id) ==> meta.log == old(meta.log) && meta.responses == old(meta.responses)
    ensures !Truthy(dto.meta_campaign_id) ==>
              && meta.log == old(meta.log) + [Exchange(CreateCampaignCall(CampaignName(dto)), Head(old(meta.responses)))]
              && meta.responses == Tail(old(meta.responses))
              && r.meta_campaign_id == CampaignIdOrNull(Head(old(meta.responses)))
  {
    var slug := ChosenSlug(dto.slug, dto.name);
    var row := db.CreateRestaurant(dto.(slug := slug, meta_campaign_id := OrNull(dto.meta_campaign_id)));
    ghost var n := |db.restaurants|;
    assert db.restaurants[..n - 1] == old(db.restaurants);
    if !Truthy(dto.meta_campaign_id) {
      var campaignId := meta.CreateCampaign(CampaignName(row));
      ghost var before := db.restaurants;
      var updated := db.UpdateRestaurant(row.id, RestaurantPatch(None, Some(campaignId)));
      assert before[n - 1] == row;
      assert forall i :: 0 <= i < n - 1 ==> before[i].id != row.id by {
        assert forall i :: 0 <= i < n - 1 ==> before[i].id in Ids(old(db.restaurants), RestaurantId);
      }
      if updated.Err? {
        assert false;
      }
      r := updated.value;
      assert db.restaurants[n - 1] == r;
      assert db.restaurants[..n - 1] == before[..n - 1];
      return;
    }
    r := row;
  }

  /** The row after a retry: the chosen slug and the campaign id Meta's reply gave, or null. */
  function Retried(before: Restaurant, resp: Response): (after: Restaurant)
    ensures IsSlug(after.slug) || after.slug == before.slug
    ensures CampaignIdOrNull(resp).Some? ==> Truthy(after.meta_campaign_id)
  {
    before.(slug := ChosenSlug(before.slug, before.name), meta_campaign_id := CampaignIdOrNull(resp))
  }

  /**
   * `retryCampaign(id)`: an error for an unknown id; the row unchanged, with
   * no call to Meta, when it already has a campaign; otherwise a slug is
   * generated and stored only if the row had none, a campaign is created and
   * its id (null when Meta failed) is written to the row.
   */
  method RetryCampaign(db: Database, meta: MetaClient, id: Id) returns (r: Result<Restaurant>)
    requires db.Valid()
    modifies db`restaurants, meta
    ensures db.Valid()
    ensures old(db.RestaurantById(id)).None? ==>
              r == Err("Restaurant not found: " + NatToString(id)) && db.restaurants == old(db.restaurants)
    ensures old(db.RestaurantById(id)).Some? && Truthy(old(db.RestaurantById(id)).value.meta_campaign_id) ==>
              r == Ok(old(db.RestaurantById(id)).value) && db.restaurants == old(db.restaurants)
    ensures old(db.RestaurantById(id)).None? || Truthy(old(db.RestaurantById(id)).value.meta_campaign_id) ==>
              meta.log == old(meta.log) && meta.responses == old(meta.responses)
    ensures old(db.RestaurantById(id)).Some? && !Truthy(old(db.RestaurantById(id)).value.meta_campaign_id) ==>
              && meta.log == old(meta.log) + [Exchange(CreateCampaignCall(CampaignName(old(db.RestaurantById(id)).value)),
                                                       Head(old(meta.responses)))]
              && meta.responses == Tail(old(meta.responses))
    ensures old(db.RestaurantById(id)).Some? && !Truthy(old(db.RestaurantById(id)).value.meta_campaign_id) ==>
              r == Ok(Retried(old(db.RestaurantById(id)).value, Head(old(meta.responses))))
    ensures old(db.RestaurantById(id)).Some? && !Truthy(old(db.RestaurantById(id)).value.meta_campaign_id) ==>
              && |db.restaurants| == |old(db.restaurants)|
              && forall i :: 0 <= i < |db.restaurants| ==>
                   db.restaurants[i] == if old(db.restaurants)[i].id == id
                                        then Retried(old(db.restaurants)[i], Head(old(meta.responses)))
                                        else old(db.restaurants)[i]
    ensures r.Ok? ==> r.value in db.restaurants
  {
    var found := db.RestaurantById(id);
    if found.None? {
      return Err("Restaurant not found: " + NatToString(id));
    }
    var restaurant := found.value;
    if Truthy(restaurant.meta_campaign_id) {
      return Ok(restaurant);
    }
    r := CreateMissingCampaign(db, meta, restaurant);
  }

  /** The retry branch of `retryCampaign`: the row has no campaign yet. */
  method CreateMissingCampaign(db: Database, meta: MetaClient, restaurant: Restaurant) returns (r: Result<Restaurant>)
    requires db.Valid() && db.RestaurantById(restaurant.id) == Some(restaurant) && !Truthy(restaurant.meta_campaign_id)
    modifies db`restaurants, meta
    ensures db.Valid()
    ensures meta.log == old(meta.log) + [Exchange(CreateCampaignCall(CampaignName(restaurant)), Head(old(meta.responses)))]
    ensures meta.responses == Tail(old(meta.responses))
    ensures r == Ok(Retried(restaurant, Head(old(meta.responses))))
    ensures |db.restaurants| == |old(db.restaurants)|
    ensures forall i :: 0 <= i < |db.restaurants| ==>
              db.restaurants[i] == if old(db.restaurants)[i].id == restaurant.id
                                   then Retried(old(db.restaurants)[i], Head(old(meta.responses)))
                                   else old(db.restaurants)[i]
    ensures r.value in db.restaurants
  {
    var id := restaurant.id;
    ghost var before := db.restaurants;
    OnlyRowWithId(before, RestaurantId, restaurant);
    var slugged := StoreMissingSlug(db, restaurant);
    var campaignId := meta.CreateCampaign(CampaignName(restaurant));
    var updated := db.UpdateRestaurant(id, RestaurantPatch(None, Some(campaignId)));
    if updated.Err? {
      assert false;
    }
    r := Ok(updated.value);
  }

  /**
   * The slug step of the retry branch: a restaurant without a slug gets the
   * generated one stored; one with a slug is left as it is. Every other row
   * is kept.
   */
  method StoreMissingSlug(db: Database, restaurant: Restaurant) returns (slugged: Restaurant)
    requires db.Valid() && db.RestaurantById(restaurant.id) == Some(restaurant)
    modifies db`restaurants
    ensures db.Valid()
    ensures slugged == restaurant.(slug := ChosenSlug(restaurant.slug, restaurant.name))
    ensures db.RestaurantById(restaurant.id) == Some(slugged)
    ensures |db.restaurants| == |old(db.restaurants)|
    ensures forall i :: 0 <= i < |db.restaurants| ==>
              db.restaurants[i] == if old(db.restaurants)[i].id == restaurant.id then slugged else old(db.restaurants)[i]
  {
    OnlyRowWithId(db.restaurants, RestaurantId, restaurant);
    slugged := restaurant.(slug := ChosenSlug(restaurant.slug, restaurant.name));
    if restaurant.slug == "" {
      var stored := db.UpdateRestaurant(restaurant.id, RestaurantPatch(Some(slugged.slug), None));
    }
    ghost var k :| 0 <= k < |old(db.restaurants)| && old(db.restaurants)[k] == restaurant;
    db.RestaurantByOwnId(db.restaurants[k]);
  }
}
