/**
 * The ad-set resolver (packages/api/src/modules/ad-sets/ad-sets.service.ts).
 *
 * `GetOrCreateAdSet` reuses the usable ad set of the highest version, or
 * creates the next version: it validates the category and the restaurant's
 * campaign, names the ad set `{code}_{category}_{vv}`, picks the radius,
 * applies the category's targeting overrides, computes the daily budget
 * from the restaurant's priorities with a floor, creates the ad set in Meta
 * and only then inserts the local row.
 */
module AdSets {
  import opened Common
  import opened Store
  import opened MetaApi

  // ---------------------------------------------------------------------------
  // Targeting overrides per category (CATEGORY_TARGETING)
  // ---------------------------------------------------------------------------

  datatype TargetingOverride = TargetingOverride(ageMin: Option<int>, ageMax: Option<int>, interests: Option<seq<Interest>>)

  const NO_OVERRIDE: TargetingOverride := TargetingOverride(None, None, None)

  const FAMILY: Interest := Interest("6003139266461", "Family")
  const DATING: Interest := Interest("6003248649975", "Dating")
  const RESTAURANTS: Interest := Interest("6003107902433", "Restaurants")
  const FOOD_DELIVERY: Interest := Interest("6003384829661", "Food delivery")

  const CATEGORY_TARGETING: map<string, TargetingOverride> := map[
    "EV_FAM" := TargetingOverride(None, None, Some([FAMILY])),
    "EV_PAR" := TargetingOverride(Some(21), Some(45), Some([DATING])),
    "EV_SEN" := TargetingOverride(Some(55), Some(65), None),
    "LU_ONS" := TargetingOverride(None, None, Some([RESTAURANTS])),
    "LU_DEL" := TargetingOverride(None, None, Some([FOOD_DELIVERY])),
    "PD_DEL" := TargetingOverride(None, None, Some([FOOD_DELIVERY])),
    "PR_DEL_CYK" := TargetingOverride(None, None, Some([FOOD_DELIVERY])),
    "PR_DEL_JED" := TargetingOverride(None, None, Some([FOOD_DELIVERY]))
  ]

  /** `CATEGORY_TARGETING[categoryCode] || {}`. */
  function OverridesFor(categoryCode: string): (o: TargetingOverride)
    ensures categoryCode in CATEGORY_TARGETING ==> o == CATEGORY_TARGETING[categoryCode]
    ensures categoryCode !in CATEGORY_TARGETING ==> o == NO_OVERRIDE
  {
    if categoryCode in CATEGORY_TARGETING then CATEGORY_TARGETING[categoryCode] else NO_OVERRIDE
  }

  // ---------------------------------------------------------------------------
  // Radius
  // ---------------------------------------------------------------------------

  /** `getBaseRadiusKm`: the radius for the city size, 10 km for an unknown size. */
  function BaseRadiusKm(area: string): (km: int)
    ensures area == "S-CITY" ==> km == 5
    ensures area == "M-CITY" ==> km == 10
    ensures area == "L-CITY" ==> km == 15
    ensures area !in {"S-CITY", "M-CITY", "L-CITY"} ==> km == 10
  {
    match area
    case "S-CITY" => 5
    case "M-CITY" => 10
    case "L-CITY" => 15
    case _ => 10
  }

  /** Delivery categories reach as far as the restaurant delivers; the others by city size. */
  function RadiusKm(restaurant: Restaurant, category: AdSetCategory): (km: int)
    ensures category.requires_delivery ==> km == restaurant.delivery_radius_km
    ensures !category.requires_delivery ==> km == BaseRadiusKm(restaurant.area) && 5 <= km <= 15
  {
    if category.requires_delivery then restaurant.delivery_radius_km else BaseRadiusKm(restaurant.area)
  }

  /** The targeting sent to Meta for a new ad set of this restaurant and category. */
  function AdSetTargeting(restaurant: Restaurant, category: AdSetCategory, categoryCode: string): Targeting {
    var o := OverridesFor(categoryCode);
    BuildTargeting(restaurant.lat, restaurant.lng, RadiusKm(restaurant, category), o.ageMin, o.ageMax, o.interests)
  }

  /** A category without an entry in the table gets the default ages and no interests. */
  lemma DefaultTargeting(restaurant: Restaurant, category: AdSetCategory, categoryCode: string)
    requires categoryCode !in CATEGORY_TARGETING
    ensures var t := AdSetTargeting(restaurant, category, categoryCode);
            t.age_min == DEFAULT_AGE_MIN && t.age_max == DEFAULT_AGE_MAX && t.flexible_spec.None?
  {
  }

  // ---------------------------------------------------------------------------
  // Name
  // ---------------------------------------------------------------------------

  /** `version.toString().padStart(2, '0')`. */
  function VersionLabel(version: nat): (s: string)
    ensures |s| >= 2 && AllDigits(s) && DecimalValue(s) == version
  {
    var digits := NatToString(version);
    PadStartValue(digits, 2);
    DecimalRoundTrip(version);
    PadStart(digits, 2, '0')
  }

  /** `${restaurant.code}_${categoryCode}_${versionStr}`. */
  function AdSetName(code: string, categoryCode: string, version: nat): string {
    code + "_" + categoryCode + "_" + VersionLabel(version)
  }

  /** Different versions of one restaurant and category never share a name. */
  lemma AdSetNameInjective(code: string, categoryCode: string, v1: nat, v2: nat)
    requires AdSetName(code, categoryCode, v1) == AdSetName(code, categoryCode, v2)
    ensures v1 == v2
  {
    var prefix := code + "_" + categoryCode + "_";
    var n1, n2 := AdSetName(code, categoryCode, v1), AdSetName(code, categoryCode, v2);
    assert n1[|prefix|..] == VersionLabel(v1);
    assert n2[|prefix|..] == VersionLabel(v2);
  }

  // ---------------------------------------------------------------------------
  // Daily budget
  // ---------------------------------------------------------------------------

  const BASE_BUDGET: nat := 50
  const DEFAULT_PRIORITY: nat := 10
  const PRIORITY_BASE: nat := 100
  const MIN_DAILY_BUDGET: nat := 5

  /** The value stored under a key of the priorities object, if any. */
  function PriorityEntry(priorities: seq<(string, nat)>, key: string): (v: Option<nat>)
    ensures v.Some? ==> (key, v.value) in priorities
    ensures v.None? ==> forall e :: e in priorities ==> e.0 != key
  {
    if priorities == [] then None
    else if priorities[0].0 == key then Some(priorities[0].1)
    else PriorityEntry(priorities[1..], key)
  }

  /** `budget_priorities[parent_category] || 10`. */
  function CategoryPriority(priorities: seq<(string, nat)>, key: string): (p: nat)
    ensures p > 0
  {
    match PriorityEntry(priorities, key)
    case Some(v) => if v != 0 then v else DEFAULT_PRIORITY
    case None => DEFAULT_PRIORITY
  }

  /** `Object.values(budget_priorities).reduce((a, b) => a + b, 100)`. */
  function TotalPriority(priorities: seq<(string, nat)>): (t: nat)
    ensures t >= PRIORITY_BASE
  {
    if priorities == [] then PRIORITY_BASE else priorities[0].1 + TotalPriority(priorities[1..])
  }

  /** Every stored priority is part of the total above the base of 100. */
  lemma {:induction false} EntryWithinTotal(priorities: seq<(string, nat)>, e: (string, nat))
    requires e in priorities
    ensures e.1 + PRIORITY_BASE <= TotalPriority(priorities)
  {
    if priorities[0] != e {
      EntryWithinTotal(priorities[1..], e);
    }
  }

  /** `Math.round(num / den)` for non-negative operands: the nearest integer, halves rounded up. */
  function RoundHalfUp(num: nat, den: nat): (r: nat)
    requires den > 0
    ensures 2 * den * r <= 2 * num + den < 2 * den * (r + 1)
  {
    (2 * num + den) / (2 * den)
  }

  /** `Math.round((baseBudget * categoryPriority) / totalPriority)`. */
  function DailyBudget(restaurant: Restaurant, category: AdSetCategory): nat {
    RoundHalfUp(BASE_BUDGET * CategoryPriority(restaurant.budget_priorities, category.parent_category),
                TotalPriority(restaurant.budget_priorities))
  }

  /** `Math.max(dailyBudget, 5)`: the budget Meta is asked for. */
  function MetaDailyBudget(restaurant: Restaurant, category: AdSetCategory): nat {
    if DailyBudget(restaurant, category) < MIN_DAILY_BUDGET then MIN_DAILY_BUDGET else DailyBudget(restaurant, category)
  }

  /**
   * The budget Meta is asked for lies between the floor of 5 and the base of
   * 50: a category's own priority is part of the total it is divided by, and
   * the default of 10 is below the base of 100 the total starts from.
   */
  lemma {:induction false} MetaDailyBudgetBounds(restaurant: Restaurant, category: AdSetCategory)
    ensures MIN_DAILY_BUDGET <= MetaDailyBudget(restaurant, category) <= BASE_BUDGET
  {
    var ps := restaurant.budget_priorities;
    var p := CategoryPriority(ps, category.parent_category);
    var t := TotalPriority(ps);
    var entry := PriorityEntry(ps, category.parent_category);
    if entry.Some? && entry.value != 0 {
      EntryWithinTotal(ps, (category.parent_category, entry.value));
    }
    ShareWithinBase(p, t, DailyBudget(restaurant, category));
  }

  /** A rounded share p/t of the base budget, with p at most t, is at most the base budget. */
  lemma ShareWithinBase(p: nat, t: nat, r: nat)
    requires 0 < t && p <= t && 2 * t * r <= 2 * (BASE_BUDGET * p) + t
    ensures r <= BASE_BUDGET
  {
    assert BASE_BUDGET * p <= BASE_BUDGET * t;
  }

  // ---------------------------------------------------------------------------
  // Resolution
  // ---------------------------------------------------------------------------

  /** The row `createAdSet` inserts once Meta has answered with an id. */
  function NewAdSetRow(id: Id, restaurant: Restaurant, category: AdSetCategory, categoryCode: string,
                       eventIdentifier: Option<string>, version: nat, metaAdSetId: string): AdSet {
    AdSet(id, restaurant.id, category.id, Some(metaAdSetId), AdSetName(restaurant.code, categoryCode, version),
          version, 0, AdSetActive, OrNull(eventIdentifier))
  }

  /** The request `createAdSet` sends to Meta. */
  function AdSetRequest(restaurant: Restaurant, category: AdSetCategory, categoryCode: string, version: nat): MetaCall
    requires restaurant.meta_campaign_id.Some?
  {
    CreateAdSetCall(restaurant.meta_campaign_id.value, AdSetName(restaurant.code, categoryCode, version),
                    AdSetTargeting(restaurant, category, categoryCode), BudgetCents(MetaDailyBudget(restaurant, category)))
  }

  /**
   * The private `createAdSet`: the two validations come before any Meta call;
   * the local row is inserted only after Meta returned an id, with no ads,
   * ACTIVE, the next version and the deterministic name.
   */
  method CreateAdSet(db: Database, meta: MetaClient, restaurant: Restaurant, categoryCode: string,
                     eventIdentifier: Option<string>) returns (r: Result<AdSet>)
    requires db.Valid()
    modifies db`adSets, db`nextId, meta
    ensures db.Valid()
    ensures old(db.CategoryByCode(categoryCode)).None? ==>
              && r == Err("Unknown category: " + categoryCode)
              && db.adSets == old(db.adSets) && meta.log == old(meta.log) && meta.responses == old(meta.responses)
    ensures old(db.CategoryByCode(categoryCode)).Some? && !Truthy(restaurant.meta_campaign_id) ==>
              && r == Err("Restaurant " + restaurant.name + " has no campaign")
              && db.adSets == old(db.adSets) && meta.log == old(meta.log) && meta.responses == old(meta.responses)
    ensures old(db.CategoryByCode(categoryCode)).Some? && Truthy(restaurant.meta_campaign_id) ==>
              var category := old(db.CategoryByCode(categoryCode)).value;
              var version := old(db.NextAdSetVersion(restaurant.id, category.id));
              var reply := Head(old(meta.responses));
              && meta.log == old(meta.log) + [Exchange(AdSetRequest(restaurant, category, categoryCode, version), reply)]
              && meta.responses == Tail(old(meta.responses))
              && (CreatedId(reply, "ad set").Err? ==> r == Err(CreatedId(reply, "ad set").error) && db.adSets == old(db.adSets))
              && (CreatedId(reply, "ad set").Ok? ==>
                    var row := NewAdSetRow(old(db.nextId), restaurant, category, categoryCode, eventIdentifier, version,
                                           reply.id);
                    r == Ok(row) && db.adSets == old(db.adSets) + [row])
    ensures r.Ok? ==> db.AdSetForCategory(restaurant.id, categoryCode, eventIdentifier) == Some(r.value)
    ensures GrowsByEmpty(old(db.adSets), db.adSets)
    ensures LogExtends(old(meta.log), meta.log)
    ensures WithinCapacity(old(db.adSets)) ==> WithinCapacity(db.adSets)
    ensures DistinctVersions(old(db.adSets)) ==> DistinctVersions(db.adSets)
  {
    var found := db.CategoryByCode(categoryCode);
    if found.None? {
      return Err("Unknown category: " + categoryCode);
    }
    var category := found.value;
    if !Truthy(restaurant.meta_campaign_id) {
      return Err("Restaurant " + restaurant.name + " has no campaign");
    }
    var version := db.NextAdSetVersion(restaurant.id, category.id);
    var name := AdSetName(restaurant.code, categoryCode, version);
    var targeting := AdSetTargeting(restaurant, category, categoryCode);
    var created := meta.CreateAdSet(restaurant.meta_campaign_id.value, name, targeting,
                                    MetaDailyBudget(restaurant, category));
    if created.Err? {
      return Err(created.error);
    }
    var row := InsertAdSet(db, restaurant, category, categoryCode, eventIdentifier, version, created.value);
    r := Ok(row);
  }

  /**
   * The insert that ends `createAdSet`: the new row of the next version is
   * the one the lookup selects from now on, and versions stay distinct.
   */
  method InsertAdSet(db: Database, restaurant: Restaurant, category: AdSetCategory, categoryCode: string,
                     eventIdentifier: Option<string>, version: nat, metaAdSetId: string) returns (row: AdSet)
    requires db.Valid()
    requires db.CategoryByCode(categoryCode) == Some(category)
    requires version == db.NextAdSetVersion(restaurant.id, category.id)
    modifies db`adSets, db`nextId
    ensures db.Valid()
    ensures row == NewAdSetRow(old(db.nextId), restaurant, category, categoryCode, eventIdentifier, version, metaAdSetId)
    ensures db.adSets == old(db.adSets) + [row]
    ensures db.AdSetForCategory(restaurant.id, categoryCode, eventIdentifier) == Some(row)
    ensures GrowsByEmpty(old(db.adSets), db.adSets)
    ensures WithinCapacity(old(db.adSets)) ==> WithinCapacity(db.adSets)
    ensures DistinctVersions(old(db.adSets)) ==> DistinctVersions(db.adSets)
  {
    ghost var before := db.adSets;
    row := db.CreateAdSet(NewAdSetRow(0, restaurant, category, categoryCode, eventIdentifier, version, metaAdSetId));
    assert row.version == MaxVersion(before, restaurant.id, category.id) + 1;
    assert Usable(row, restaurant.id, category.id, eventIdentifier);
    NewRowIsSelected(before, row, restaurant.id, category.id, eventIdentifier);
    AppendEmptyAdSet(before, row);
    if DistinctVersions(before) {
      NextVersionKeepsDistinct(before, row);
    }
  }

  /** A usable row of the next version is above every other usable one: the lookup now finds it. */
  lemma NewRowIsSelected(adSets: seq<AdSet>, row: AdSet, restaurantId: Id, categoryId: Id,
                         eventIdentifier: Option<string>)
    requires Usable(row, restaurantId, categoryId, eventIdentifier)
    requires row.version == MaxVersion(adSets, restaurantId, categoryId) + 1
    ensures SelectAdSet(adSets + [row], restaurantId, categoryId, eventIdentifier) == Some(row)
  {
    SelectStrictMaximum(adSets, row, restaurantId, categoryId, eventIdentifier);
  }

  /** The next version keeps versions distinct within a restaurant and category. */
  lemma NextVersionKeepsDistinct(adSets: seq<AdSet>, row: AdSet)
    requires DistinctVersions(adSets)
    requires row.version == MaxVersion(adSets, row.restaurant_id, row.category_id) + 1
    ensures DistinctVersions(adSets + [row])
  {
    var s := adSets + [row];
    forall i, j | 0 <= i < |s| && 0 <= j < |s| && s[i].restaurant_id == s[j].restaurant_id &&
                  s[i].category_id == s[j].category_id && s[i].version == s[j].version
      ensures i == j
    {
    }
  }

  /**
   * `getOrCreateAdSet`: a usable ad set is returned as it is, with no Meta
   * call and no insert; otherwise `CreateAdSet` runs. Either way a second
   * call right after would return the same ad set, the ad set returned can
   * take one more ad, and the store's invariants on ad sets hold on.
   */
  method GetOrCreateAdSet(db: Database, meta: MetaClient, restaurant: Restaurant, categoryCode: string,
                          eventIdentifier: Option<string>) returns (r: Result<AdSet>)
    requires db.Valid()
    modifies db`adSets, db`nextId, meta
    ensures db.Valid()
    ensures old(db.AdSetForCategory(restaurant.id, categoryCode, eventIdentifier)).Some? ==>
              && r == Ok(old(db.AdSetForCategory(restaurant.id, categoryCode, eventIdentifier)).value)
              && db.adSets == old(db.adSets) && meta.log == old(meta.log) && meta.responses == old(meta.responses)
    ensures old(db.CategoryByCode(categoryCode)).None? ==> r == Err("Unknown category: " + categoryCode)
    ensures r.Err? ==> db.adSets == old(db.adSets)
    ensures old(db.AdSetForCategory(restaurant.id, categoryCode, eventIdentifier)).None? && r.Ok? ==>
              && db.adSets == old(db.adSets) + [r.value] && r.value.ads_count == 0
              && r.value.id == old(db.nextId) && r.value.meta_ad_set_id.Some?
              && r.value.name == AdSetName(restaurant.code, categoryCode, r.value.version)
    ensures r.Ok? ==> db.AdSetForCategory(restaurant.id, categoryCode, eventIdentifier) == Some(r.value)
    ensures GrowsByEmpty(old(db.adSets), db.adSets)
    ensures LogExtends(old(meta.log), meta.log)
    ensures WithinCapacity(old(db.adSets)) ==> WithinCapacity(db.adSets)
    ensures DistinctVersions(old(db.adSets)) ==> DistinctVersions(db.adSets)
    ensures old(db.Consistent()) ==> db.Consistent()
  {
    var existing := db.AdSetForCategory(restaurant.id, categoryCode, eventIdentifier);
    if existing.Some? {
      return Ok(existing.value);
    }
    r := CreateAdSet(db, meta, restaurant, categoryCode, eventIdentifier);
  }
}
