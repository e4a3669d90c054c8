/**
 * Tracking links (packages/api/src/services/tracking-link.service.ts).
 *
 * A link carries the restaurant id `r`, the compound `c` parameter
 * `.pi{platform}.pk{opportunity}.ps{placement}` and four UTM parameters,
 * set on the destination URL's query. `parseTrackingUrl` reads them back
 * with three regular-expression searches and `validateTrackingUrl` lists
 * the missing ones in a fixed order.
 *
 * Turning URL text into a URL and back (WHATWG parsing, serialisation and
 * percent-encoding) is not modelled: a URL is its part before the query,
 * its query as an ordered list of name/value pairs, and its fragment, and
 * the text handed to `new URL(...)` arrives as `Malformed` or as the URL
 * it denotes.
 */
module TrackingLink {
  import opened Common

  // ---------------------------------------------------------------------------
  // URLs and their query
  // ---------------------------------------------------------------------------

  datatype Param = Param(name: string, value: string)

  /** Everything before `?`, the query pairs in order, and the fragment (with its `#`, or empty). */
  datatype Url = Url(base: string, query: seq<Param>, hash: string)

  /** The outcome of `new URL(text)`: it throws on text that is not a URL. */
  datatype UrlText = Malformed | WellFormed(url: Url)

  /** `searchParams.get(name)`: the value of the first pair with that name. */
  function GetParam(q: seq<Param>, name: string): Option<string> {
    if q == [] then None else if q[0].name == name then Some(q[0].value) else GetParam(q[1..], name)
  }

  /** How many pairs have that name. */
  function KeyCount(q: seq<Param>, name: string): nat {
    if q == [] then 0 else (if q[0].name == name then 1 else 0) + KeyCount(q[1..], name)
  }

  /** The pairs without any of that name. */
  function RemoveKey(q: seq<Param>, name: string): (r: seq<Param>)
    ensures GetParam(r, name) == None && KeyCount(r, name) == 0
    ensures forall other :: other != name ==> GetParam(r, other) == GetParam(q, other)
    ensures forall other :: other != name ==> KeyCount(r, other) == KeyCount(q, other)
  {
    if q == [] then []
    else if q[0].name == name then RemoveKey(q[1..], name)
    else [q[0]] + RemoveKey(q[1..], name)
  }

  /**
   * `searchParams.set(name, value)`: the first pair with that name takes the
   * value and the later ones are removed; with no such pair, one is appended.
   * Pairs with other names stay, in their order.
   */
  function SetParam(q: seq<Param>, name: string, value: string): (r: seq<Param>)
    ensures GetParam(r, name) == Some(value) && KeyCount(r, name) == 1
    ensures forall other :: other != name ==> GetParam(r, other) == GetParam(q, other)
    ensures forall other :: other != name ==> KeyCount(r, other) == KeyCount(q, other)
  {
    if q == [] then [Param(name, value)]
    else if q[0].name == name then [Param(name, value)] + RemoveKey(q[1..], name)
    else [q[0]] + SetParam(q[1..], name, value)
  }

  /** The query rendered as `name=value` pairs joined by `&` (without percent-encoding). */
  function QueryText(q: seq<Param>): string {
    if q == [] then ""
    else q[0].name + "=" + q[0].value + (if |q| == 1 then "" else "&" + QueryText(q[1..]))
  }

  /** `url.toString()`. */
  function Href(u: Url): string {
    u.base + (if u.query == [] then "" else "?" + QueryText(u.query)) + u.hash
  }

  // ---------------------------------------------------------------------------
  // generateTrackingLink / generateMetaTrackingLink
  // ---------------------------------------------------------------------------

  /** `String(n)` / `${n}` for an integer. */
  function IntToString(n: int): (s: string)
    ensures n >= 0 ==> s == NatToString(n)
    ensures s != []
  {
    if n < 0 then "-" + NatToString(-n) else NatToString(n)
  }

  const PLATFORM_MEDIUM: map<int, string> := map[1 := "meta", 2 := "google", 3 := "email", 4 := "influencer",
                                                  5 := "marketplace"]

  /** `PLATFORM_MEDIUM[pi] || 'unknown'`. */
  function Medium(pi: int): (m: string)
    ensures 1 <= pi <= 5 ==> m == PLATFORM_MEDIUM[pi]
    ensures !(1 <= pi <= 5) ==> m == "unknown"
    ensures m != ""
  {
    if pi in PLATFORM_MEDIUM && PLATFORM_MEDIUM[pi] != "" then PLATFORM_MEDIUM[pi] else "unknown"
  }

  datatype LinkParams = LinkParams(
    rid: int,
    pi: int,
    pk: int,
    ps: string,
    destination: UrlText,
    opportunitySlug: string,
    categoryCode: string,
    version: int)

  datatype Components = Components(
    r: string,
    c: string,
    utm_source: string,
    utm_medium: string,
    utm_campaign: string,
    utm_content: string)

  datatype GeneratedLink = GeneratedLink(url: Url, finalUrl: string, components: Components)

  /** The `c` parameter: `.pi{pi}.pk{pk}.ps{ps}`. */
  function CParam(pi: int, pk: int, ps: string): string {
    ".pi" + IntToString(pi) + ".pk" + IntToString(pk) + ".ps" + ps
  }

  /** The six values a tracking link carries. */
  function LinkComponents(p: LinkParams): (c: Components)
    ensures c.utm_source == "mysite" && c.utm_medium == Medium(p.pi)
    ensures StartsWith(c.utm_campaign, "pk") && c.utm_content != ""
  {
    Components(IntToString(p.rid), CParam(p.pi, p.pk, p.ps), "mysite", Medium(p.pi),
               "pk" + IntToString(p.pk) + "-" + p.opportunitySlug,
               p.categoryCode + "-v" + IntToString(p.version))
  }

  /** The query after the six `set` calls, in the source's order. */
  function TrackingQuery(q: seq<Param>, c: Components): seq<Param> {
    SetParam(SetParam(SetParam(SetParam(SetParam(SetParam(q, "r", c.r), "c", c.c), "utm_source", c.utm_source),
                               "utm_medium", c.utm_medium), "utm_campaign", c.utm_campaign), "utm_content", c.utm_content)
  }

  /** The six parameter names a tracking link sets. */
  predicate TrackingKey(name: string) {
    name == "r" || name == "c" || name == "utm_source" || name == "utm_medium" || name == "utm_campaign"
    || name == "utm_content"
  }

  /** The query carries each of the six values under its name, each name exactly once. */
  ghost predicate CarriesComponents(q: seq<Param>, c: Components) {
    && GetParam(q, "r") == Some(c.r) && GetParam(q, "c") == Some(c.c)
    && GetParam(q, "utm_source") == Some(c.utm_source) && GetParam(q, "utm_medium") == Some(c.utm_medium)
    && GetParam(q, "utm_campaign") == Some(c.utm_campaign) && GetParam(q, "utm_content") == Some(c.utm_content)
    && (forall name :: TrackingKey(name) ==> KeyCount(q, name) == 1)
  }

  /** Every name other than the six reads as it did in q0. */
  ghost predicate KeepsOtherParams(q: seq<Param>, q0: seq<Param>) {
    forall name :: !TrackingKey(name) ==> GetParam(q, name) == GetParam(q0, name)
  }

  /** The six parameter names differ from one another. */
  lemma TrackingKeysDistinct()
    ensures "r" != "c" && "r" != "utm_source" && "r" != "utm_medium" && "r" != "utm_campaign" && "r" != "utm_content"
    ensures "c" != "utm_source" && "c" != "utm_medium" && "c" != "utm_campaign" && "c" != "utm_content"
    ensures "utm_source" != "utm_medium" && "utm_source" != "utm_campaign" && "utm_source" != "utm_content"
    ensures "utm_medium" != "utm_campaign" && "utm_medium" != "utm_content"
    ensures "utm_campaign" != "utm_content"
  {
    assert "r"[0] != "c"[0];
    assert "utm_source"[4] != "utm_medium"[4];
    assert |"r"| == 1 && |"c"| == 1 && |"utm_source"| == 10 && |"utm_medium"| == 10;
    assert |"utm_campaign"| == 12 && |"utm_content"| == 11;
  }

  /** After the six `set` calls each value is read back under its name. */
  lemma TrackingQueryGets(q: seq<Param>, c: Components)
    ensures GetParam(TrackingQuery(q, c), "r") == Some(c.r)
    ensures GetParam(TrackingQuery(q, c), "c") == Some(c.c)
    ensures GetParam(TrackingQuery(q, c), "utm_source") == Some(c.utm_source)
    ensures GetParam(TrackingQuery(q, c), "utm_medium") == Some(c.utm_medium)
    ensures GetParam(TrackingQuery(q, c), "utm_campaign") == Some(c.utm_campaign)
    ensures GetParam(TrackingQuery(q, c), "utm_content") == Some(c.utm_content)
  {
    TrackingKeysDistinct();
    var q1 := SetParam(q, "r", c.r);
    var q2 := SetParam(q1, "c", c.c);
    var q3 := SetParam(q2, "utm_source", c.utm_source);
    var q4 := SetParam(q3, "utm_medium", c.utm_medium);
    var q5 := SetParam(q4, "utm_campaign", c.utm_campaign);
    var q6 := SetParam(q5, "utm_content", c.utm_content);
    assert GetParam(q6, "r") == GetParam(q5, "r") == GetParam(q4, "r") == GetParam(q3, "r") == GetParam(q2, "r");
    assert GetParam(q6, "c") == GetParam(q5, "c") == GetParam(q4, "c") == GetParam(q3, "c");
    assert GetParam(q6, "utm_source") == GetParam(q5, "utm_source") == GetParam(q4, "utm_source");
    assert GetParam(q6, "utm_medium") == GetParam(q5, "utm_medium");
  }

  /** After the six `set` calls each of the six names occurs once. */
  lemma TrackingQueryCounts(q: seq<Param>, c: Components, name: string)
    requires TrackingKey(name)
    ensures KeyCount(TrackingQuery(q, c), name) == 1
  {
    TrackingKeysDistinct();
    var q1 := SetParam(q, "r", c.r);
    var q2 := SetParam(q1, "c", c.c);
    var q3 := SetParam(q2, "utm_source", c.utm_source);
    var q4 := SetParam(q3, "utm_medium", c.utm_medium);
    var q5 := SetParam(q4, "utm_campaign", c.utm_campaign);
    var q6 := SetParam(q5, "utm_content", c.utm_content);
    assert q6 == TrackingQuery(q, c);
  }

  /** The six `set` calls leave every other name reading as before. */
  lemma TrackingQueryKeeps(q: seq<Param>, c: Components, name: string)
    requires !TrackingKey(name)
    ensures GetParam(TrackingQuery(q, c), name) == GetParam(q, name)
  {
    var q1 := SetParam(q, "r", c.r);
    var q2 := SetParam(q1, "c", c.c);
    var q3 := SetParam(q2, "utm_source", c.utm_source);
    var q4 := SetParam(q3, "utm_medium", c.utm_medium);
    var q5 := SetParam(q4, "utm_campaign", c.utm_campaign);
    var q6 := SetParam(q5, "utm_content", c.utm_content);
    assert GetParam(q6, name) == GetParam(q5, name) == GetParam(q4, name) == GetParam(q3, name);
    assert GetParam(q3, name) == GetParam(q2, name) == GetParam(q1, name) == GetParam(q, name);
  }

  /** The six `set` calls leave each value readable under its name, once, and nothing else changed. */
  lemma TrackingQueryCarries(q: seq<Param>, c: Components)
    ensures CarriesComponents(TrackingQuery(q, c), c)
    ensures KeepsOtherParams(TrackingQuery(q, c), q)
  {
    TrackingQueryGets(q, c);
    forall name | TrackingKey(name)
      ensures KeyCount(TrackingQuery(q, c), name) == 1
    {
      TrackingQueryCounts(q, c, name);
    }
    forall name | !TrackingKey(name)
      ensures GetParam(TrackingQuery(q, c), name) == GetParam(q, name)
    {
      TrackingQueryKeeps(q, c, name);
    }
  }

  /**
   * `generateTrackingLink`: the destination with the six parameters set,
   * each exactly once; every other query pair, the part before the query and
   * the fragment as they were. A destination that is not a URL throws.
   */
  method GenerateTrackingLink(p: LinkParams) returns (r: Result<GeneratedLink>)
    ensures p.destination.Malformed? ==> r == Err("Invalid URL")
    ensures p.destination.WellFormed? ==> r.Ok?
    ensures r.Ok? ==> r.value.components == LinkComponents(p)
    ensures r.Ok? ==> r.value.url.base == p.destination.url.base && r.value.url.hash == p.destination.url.hash
    ensures r.Ok? ==> r.value.url.query == TrackingQuery(p.destination.url.query, LinkComponents(p))
    ensures r.Ok? ==> r.value.finalUrl == Href(r.value.url)
    ensures r.Ok? ==> CarriesComponents(r.value.url.query, r.value.components)
    ensures r.Ok? ==> KeepsOtherParams(r.value.url.query, p.destination.url.query)
  {
    if p.destination.Malformed? {
      return Err("Invalid URL");
    }
    var c := LinkComponents(p);
    var url := p.destination.url;
    ghost var q0 := url.query;
    url := url.(query := SetParam(url.query, "r", c.r));
    url := url.(query := SetParam(url.query, "c", c.c));
    url := url.(query := SetParam(url.query, "utm_source", c.utm_source));
    url := url.(query := SetParam(url.query, "utm_medium", c.utm_medium));
    url := url.(query := SetParam(url.query, "utm_campaign", c.utm_campaign));
    url := url.(query := SetParam(url.query, "utm_content", c.utm_content));
    assert url.query == TrackingQuery(q0, c);
    TrackingQueryCarries(q0, c);
    r := Ok(GeneratedLink(url, Href(url), c));
  }

  /** The Meta macro Meta replaces with the ad's id when serving the ad. */
  const META_AD_ID_MACRO: string := "{{ad.id}}"

  /** `generateMetaTrackingLink`: platform 1 and the ad-id macro as the placement. */
  method GenerateMetaTrackingLink(p: LinkParams) returns (r: Result<GeneratedLink>)
    ensures p.destination.Malformed? ==> r == Err("Invalid URL")
    ensures p.destination.WellFormed? ==> r.Ok?
    ensures r.Ok? ==> r.value.components == LinkComponents(p.(pi := 1, ps := META_AD_ID_MACRO))
    ensures r.Ok? ==> r.value.url.query == TrackingQuery(p.destination.url.query, r.value.components)
    ensures r.Ok? ==> r.value.components.utm_medium == "meta"
    ensures r.Ok? ==> r.value.components.c == CParam(1, p.pk, META_AD_ID_MACRO)
  {
    r := GenerateTrackingLink(p.(pi := 1, ps := META_AD_ID_MACRO));
  }

  // ---------------------------------------------------------------------------
  // parseTrackingUrl
  // ---------------------------------------------------------------------------

  /** The two character classes the patterns use: `\d` and `[^.]`. */
  datatype CharClass = Digits | NotDot

  predicate InClass(cls: CharClass, ch: char) {
    match cls
    case Digits => IsDigit(ch)
    case NotDot => ch != '.'
  }

  /** The longest prefix of s in the class (the greedy `+`, once one character matched). */
  function Run(s: string, cls: CharClass): (r: string)
    ensures |r| <= |s| && r == s[..|r|]
    ensures forall i :: 0 <= i < |r| ==> InClass(cls, r[i])
    ensures |r| < |s| ==> !InClass(cls, s[|r|])
  {
    if s == [] || !InClass(cls, s[0]) then [] else [s[0]] + Run(s[1..], cls)
  }

  /** `s.match(/tag(class+)/)?.[1]`: the capture at the leftmost position where the pattern matches. */
  function Search(s: string, tag: string, cls: CharClass): (r: Option<string>)
    ensures r.Some? ==> r.value != []
    decreases |s|
  {
    if |s| <= |tag| then None
    else if StartsWith(s, tag) && InClass(cls, s[|tag|]) then Some(Run(s[|tag|..], cls))
    else Search(s[1..], tag, cls)
  }

  /** What `parseTrackingUrl` returns; absent fields are `undefined`. */
  datatype ParsedLink = ParsedLink(
    rid: Option<string>,
    pi: Option<string>,
    pk: Option<string>,
    ps: Option<string>,
    utm_source: Option<string>,
    utm_medium: Option<string>,
    utm_campaign: Option<string>,
    utm_content: Option<string>)

  /** The platform, opportunity and placement read from the `c` parameter; all absent when it is. */
  function ParseCompound(c: Option<string>): (r: (Option<string>, Option<string>, Option<string>))
    ensures !Truthy(c) ==> r == (None, None, None)
    ensures Truthy(c) ==> r == (Search(c.value, ".pi", Digits), Search(c.value, ".pk", Digits),
                                Search(c.value, ".ps", NotDot))
  {
    if Truthy(c) then (Search(c.value, ".pi", Digits), Search(c.value, ".pk", Digits), Search(c.value, ".ps", NotDot))
    else (None, None, None)
  }

  /**
   * `parseTrackingUrl`: null for text that is not a URL; an absent or empty
   * parameter is reported absent; pi, pk and ps come from the `c` parameter.
   */
  function ParseTrackingUrl(u: UrlText): (r: Option<ParsedLink>)
    ensures r.None? <==> u.Malformed?
    ensures r.Some? ==> r.value.rid == OrNull(GetParam(u.url.query, "r"))
    ensures r.Some? ==> (r.value.pi, r.value.pk, r.value.ps) == ParseCompound(GetParam(u.url.query, "c"))
    ensures r.Some? ==> r.value.utm_source == OrNull(GetParam(u.url.query, "utm_source"))
    ensures r.Some? ==> r.value.utm_medium == OrNull(GetParam(u.url.query, "utm_medium"))
    ensures r.Some? ==> r.value.utm_campaign == OrNull(GetParam(u.url.query, "utm_campaign"))
    ensures r.Some? ==> r.value.utm_content == OrNull(GetParam(u.url.query, "utm_content"))
  {
    match u
    case Malformed => None
    case WellFormed(url) =>
      var q := url.query;
      var (pi, pk, ps) := ParseCompound(GetParam(q, "c"));
      Some(ParsedLink(OrNull(GetParam(q, "r")), pi, pk, ps,
                      OrNull(GetParam(q, "utm_source")), OrNull(GetParam(q, "utm_medium")),
                      OrNull(GetParam(q, "utm_campaign")), OrNull(GetParam(q, "utm_content"))))
  }

  // ---------------------------------------------------------------------------
  // The round trip
  // ---------------------------------------------------------------------------

  predicate NoDot(s: string) {
    forall i :: 0 <= i < |s| ==> s[i] != '.'
  }

  predicate AllIn(s: string, cls: CharClass) {
    forall i :: 0 <= i < |s| ==> InClass(cls, s[i])
  }

  /** Leading characters with no '.' cannot start a match of a tag that begins with '.'. */
  lemma {:induction false} SearchSkips(prefix: string, rest: string, tag: string, cls: CharClass)
    requires tag != [] && tag[0] == '.'
    requires NoDot(prefix)
    ensures Search(prefix + rest, tag, cls) == Search(rest, tag, cls)
  {
    if prefix != [] {
      var s := prefix + rest;
      assert s[0] == prefix[0];
      if |s| > |tag| {
        assert s[..|tag|][0] != tag[0];
      }
      assert s[1..] == prefix[1..] + rest;
      SearchSkips(prefix[1..], rest, tag, cls);
    } else {
      assert prefix + rest == rest;
    }
  }

  /** A run of class characters ended by a non-class character (or the end) is captured whole. */
  lemma {:induction false} RunWhole(s: string, rest: string, cls: CharClass)
    requires AllIn(s, cls)
    requires rest == [] || !InClass(cls, rest[0])
    ensures Run(s + rest, cls) == s
  {
    if s != [] {
      assert (s + rest)[0] == s[0];
      assert (s + rest)[1..] == s[1..] + rest;
      RunWhole(s[1..], rest, cls);
    } else {
      assert s + rest == rest;
    }
  }

  /** A match right at the start of s. */
  lemma SearchHere(tag: string, body: string, rest: string, cls: CharClass)
    requires body != [] && AllIn(body, cls)
    requires rest == [] || !InClass(cls, rest[0])
    ensures Search(tag + body + rest, tag, cls) == Some(body)
  {
    var s := tag + body + rest;
    assert s[..|tag|] == tag && s[|tag|] == body[0];
    assert s[|tag|..] == body + rest;
    RunWhole(body, rest, cls);
  }

  /** A position where a different tag of the same length starts is passed over. */
  lemma SearchPasses(other: string, rest: string, tag: string, cls: CharClass)
    requires |other| == |tag| && other != tag
    ensures Search(other + rest, tag, cls) == Search((other + rest)[1..], tag, cls)
  {
    var s := other + rest;
    if |s| > |tag| {
      assert s[..|tag|] == other;
    }
  }

  /** The decimal text of a number is digits only, so it holds no '.'. */
  lemma DigitsHaveNoDot(n: nat)
    ensures NoDot(NatToString(n)) && AllIn(NatToString(n), Digits)
  {
    assert AllDigits(NatToString(n));
  }

  /** A tag of the `c` parameter: a '.', then two characters that are not '.'. */
  predicate IsTag(t: string) {
    |t| == 3 && t[0] == '.' && NoDot(t[1..])
  }

  /** The three tags are tags and differ from one another. */
  lemma CompoundTags()
    ensures IsTag(".pi") && IsTag(".pk") && IsTag(".ps")
    ensures ".pi" != ".pk" && ".pi" != ".ps" && ".pk" != ".ps"
  {
    assert ".pi"[2] != ".pk"[2] && ".pi"[2] != ".ps"[2] && ".pk"[2] != ".ps"[2];
    assert ".pi"[1..] == "pi" && ".pk"[1..] == "pk" && ".ps"[1..] == "ps";
  }

  /** Passing over a tag other than the one searched for and the no-'.' stretch after it. */
  lemma SearchPastTag(other: string, body: string, rest: string, tag: string, cls: CharClass)
    requires IsTag(other) && IsTag(tag) && other != tag && NoDot(body)
    ensures Search(other + body + rest, tag, cls) == Search(rest, tag, cls)
  {
    assert other + body + rest == other + (body + rest);
    SearchPasses(other, body + rest, tag, cls);
    var pre := other[1..] + body;
    assert NoDot(pre) by {
      assert forall i :: 0 <= i < |pre| ==> pre[i] == if i < 2 then other[1..][i] else body[i - 2];
    }
    assert (other + (body + rest))[1..] == pre + rest;
    SearchSkips(pre, rest, tag, cls);
  }

  /** The search for the first tag captures the digit run after it. */
  lemma CompoundFirst(t1: string, P: string, rest: string)
    requires IsTag(t1) && P != [] && AllIn(P, Digits)
    requires rest != [] && rest[0] == '.'
    ensures Search(t1 + P + rest, t1, Digits) == Some(P)
  {
    SearchHere(t1, P, rest, Digits);
  }

  /** The search for the second tag passes the first tag and its digits and captures the run after it. */
  lemma CompoundSecond(t1: string, P: string, t2: string, K: string, rest: string)
    requires IsTag(t1) && IsTag(t2) && t1 != t2 && NoDot(P) && K != [] && AllIn(K, Digits)
    requires rest != [] && rest[0] == '.'
    ensures Search(t1 + P + (t2 + K + rest), t2, Digits) == Some(K)
  {
    SearchPastTag(t1, P, t2 + K + rest, t2, Digits);
    SearchHere(t2, K, rest, Digits);
  }

  /** The search for the third tag passes the first two and captures a placement with no '.' whole. */
  lemma CompoundThird(t1: string, P: string, t2: string, K: string, t3: string, S: string)
    requires IsTag(t1) && IsTag(t2) && IsTag(t3) && t1 != t3 && t2 != t3 && NoDot(P) && NoDot(K)
    requires S != [] && AllIn(S, NotDot)
    ensures Search(t1 + P + (t2 + K + (t3 + S)), t3, NotDot) == Some(S)
  {
    SearchPastTag(t1, P, t2 + K + (t3 + S), t3, NotDot);
    SearchPastTag(t2, K, t3 + S, t3, NotDot);
    assert t3 + S == t3 + S + [];
    SearchHere(t3, S, [], NotDot);
  }

  /**
   * Parsing the `c` parameter of a link with non-negative ids recovers pi and
   * pk, and recovers ps when it is non-empty and has no '.'.
   */
  lemma CParamRoundTrip(pi: nat, pk: nat, ps: string)
    ensures Search(CParam(pi, pk, ps), ".pi", Digits) == Some(NatToString(pi))
    ensures Search(CParam(pi, pk, ps), ".pk", Digits) == Some(NatToString(pk))
    ensures ps != [] && NoDot(ps) ==> Search(CParam(pi, pk, ps), ".ps", NotDot) == Some(ps)
  {
    var P, K := NatToString(pi), NatToString(pk);
    DigitsHaveNoDot(pi);
    DigitsHaveNoDot(pk);
    CompoundTags();
    var tailS := ".ps" + ps;
    var tailK := ".pk" + K + tailS;
    assert CParam(pi, pk, ps) == ".pi" + P + tailK;
    CompoundFirst(".pi", P, tailK);
    CompoundSecond(".pi", P, ".pk", K, tailS);
    if ps != [] && NoDot(ps) {
      CompoundThird(".pi", P, ".pk", K, ".ps", ps);
    }
  }

  /**
   * Parsing a generated link recovers every field: rid, pi and pk as their
   * decimal text (for non-negative values), the placement when it is
   * non-empty and has no '.', and the four UTM values.
   */
  lemma GeneratedLinkParses(p: LinkParams, q0: seq<Param>, link: Url)
    requires p.rid >= 0 && p.pi >= 0 && p.pk >= 0
    requires link.query == TrackingQuery(q0, LinkComponents(p))
    ensures ParseTrackingUrl(WellFormed(link)).Some?
    ensures ParseTrackingUrl(WellFormed(link)).value.rid == Some(NatToString(p.rid))
    ensures ParseTrackingUrl(WellFormed(link)).value.pi == Some(NatToString(p.pi))
    ensures ParseTrackingUrl(WellFormed(link)).value.pk == Some(NatToString(p.pk))
    ensures p.ps != [] && NoDot(p.ps) ==> ParseTrackingUrl(WellFormed(link)).value.ps == Some(p.ps)
    ensures ParseTrackingUrl(WellFormed(link)).value.utm_source == Some("mysite")
    ensures ParseTrackingUrl(WellFormed(link)).value.utm_medium == Some(Medium(p.pi))
    ensures ParseTrackingUrl(WellFormed(link)).value.utm_campaign == Some(LinkComponents(p).utm_campaign)
    ensures ParseTrackingUrl(WellFormed(link)).value.utm_content == Some(LinkComponents(p).utm_content)
  {
    var c := LinkComponents(p);
    TrackingQueryCarries(q0, c);
    assert GetParam(link.query, "c") == Some(c.c);
    CParamRoundTrip(p.pi, p.pk, p.ps);
  }

  /** The macro is `{{ad` followed by `.id}}`. */
  lemma MacroShape()
    ensures META_AD_ID_MACRO == "{{ad" + ".id}}"
    ensures "{{ad" != [] && AllIn("{{ad", NotDot) && !InClass(NotDot, ".id}}"[0])
  {
  }

  /** The `c` parameter of a Meta link, grouped as the searches read it. */
  lemma MetaCParamShape(pk: nat)
    ensures CParam(1, pk, META_AD_ID_MACRO) == ".pi" + "1" + (".pk" + NatToString(pk) + (".ps" + META_AD_ID_MACRO))
  {
    assert IntToString(1) == "1";
  }

  /** The Meta macro contains a '.', so the parser reads back only its part before it. */
  lemma MetaMacroParsesTruncated(pk: nat)
    ensures Search(CParam(1, pk, META_AD_ID_MACRO), ".ps", NotDot) == Some("{{ad")
  {
    var K := NatToString(pk);
    DigitsHaveNoDot(pk);
    CompoundTags();
    MacroShape();
    MetaCParamShape(pk);
    var tailS := ".ps" + META_AD_ID_MACRO;
    assert NoDot("1");
    SearchPastTag(".pi", "1", ".pk" + K + tailS, ".ps", NotDot);
    SearchPastTag(".pk", K, tailS, ".ps", NotDot);
    assert tailS == ".ps" + "{{ad" + ".id}}";
    SearchHere(".ps", "{{ad", ".id}}", NotDot);
  }

  // ---------------------------------------------------------------------------
  // validateTrackingUrl
  // ---------------------------------------------------------------------------

  /** The checks of `validateTrackingUrl`, in order; `utm_content` is not among them. */
  const REQUIRED_MESSAGES: seq<string> := [
    "Missing r (restaurant ID) parameter",
    "Missing pi (platform ID) in c parameter",
    "Missing pk (opportunity key) in c parameter",
    "Missing ps (ad ID) in c parameter",
    "Missing utm_source parameter",
    "Missing utm_medium parameter",
    "Missing utm_campaign parameter"
  ]

  /** The field the i-th check looks at. */
  function Checked(p: ParsedLink, i: nat): Option<string>
    requires i < 7
  {
    if i == 0 then p.rid
    else if i == 1 then p.pi
    else if i == 2 then p.pk
    else if i == 3 then p.ps
    else if i == 4 then p.utm_source
    else if i == 5 then p.utm_medium
    else p.utm_campaign
  }

  /** The messages of the first n checks that fail, in check order. */
  function MissingMessages(p: ParsedLink, n: nat): (errors: seq<string>)
    requires n <= 7
    ensures |errors| <= n
  {
    if n == 0 then []
    else MissingMessages(p, n - 1) + (if Truthy(Checked(p, n - 1)) then [] else [REQUIRED_MESSAGES[n - 1]])
  }

  /**
   * `validateTrackingUrl`: `Invalid URL format` alone when the text is not a
   * URL; otherwise one message per missing field, in the fixed order; valid
   * exactly when there is no message.
   */
  method ValidateTrackingUrl(u: UrlText) returns (valid: bool, errors: seq<string>)
    ensures u.Malformed? ==> !valid && errors == ["Invalid URL format"]
    ensures u.WellFormed? ==> errors == MissingMessages(ParseTrackingUrl(u).value, 7)
    ensures valid <==> errors == []
  {
    var parsed := ParseTrackingUrl(u);
    if parsed.None? {
      return false, ["Invalid URL format"];
    }
    var p := parsed.value;
    errors := [];
    if !Truthy(p.rid) { errors := errors + ["Missing r (restaurant ID) parameter"]; }
    assert errors == MissingMessages(p, 1);
    if !Truthy(p.pi) { errors := errors + ["Missing pi (platform ID) in c parameter"]; }
    assert errors == MissingMessages(p, 2);
    if !Truthy(p.pk) { errors := errors + ["Missing pk (opportunity key) in c parameter"]; }
    assert errors == MissingMessages(p, 3);
    if !Truthy(p.ps) { errors := errors + ["Missing ps (ad ID) in c parameter"]; }
    assert errors == MissingMessages(p, 4);
    if !Truthy(p.utm_source) { errors := errors + ["Missing utm_source parameter"]; }
    assert errors == MissingMessages(p, 5);
    if !Truthy(p.utm_medium) { errors := errors + ["Missing utm_medium parameter"]; }
    assert errors == MissingMessages(p, 6);
    if !Truthy(p.utm_campaign) { errors := errors + ["Missing utm_campaign parameter"]; }
    valid := |errors| == 0;
  }

  /** Each check's message is reported exactly when its field is missing. */
  lemma {:induction false} MissingMessagesExact(p: ParsedLink, n: nat, i: nat)
    requires n <= 7 && i < 7
    ensures REQUIRED_MESSAGES[i] in MissingMessages(p, n) <==> i < n && !Truthy(Checked(p, i))
  {
    if n > 0 {
      MissingMessagesExact(p, n - 1, i);
      if i != n - 1 {
        assert REQUIRED_MESSAGES[i] != REQUIRED_MESSAGES[n - 1] by {
          assert |REQUIRED_MESSAGES[i]| != |REQUIRED_MESSAGES[n - 1]| || REQUIRED_MESSAGES[i][9] != REQUIRED_MESSAGES[n - 1][9]
              || REQUIRED_MESSAGES[i][15] != REQUIRED_MESSAGES[n - 1][15];
        }
      }
    }
  }

  /** No message at all exactly when every checked field is present. */
  lemma {:induction false} NoMessagesIffComplete(p: ParsedLink, n: nat)
    requires n <= 7
    ensures MissingMessages(p, n) == [] <==> forall i :: 0 <= i < n ==> Truthy(Checked(p, i))
  {
    if n > 0 {
      NoMessagesIffComplete(p, n - 1);
    }
  }

  /** `utm_content` never affects validation. */
  lemma {:induction false} ContentNeverChecked(p: ParsedLink, content: Option<string>, n: nat)
    requires n <= 7
    ensures MissingMessages(p.(utm_content := content), n) == MissingMessages(p, n)
  {
    if n > 0 {
      ContentNeverChecked(p, content, n - 1);
      assert Checked(p.(utm_content := content), n - 1) == Checked(p, n - 1);
    }
  }

  /** A generated link with non-negative ids and a non-empty placement without '.' validates. */
  lemma GeneratedLinkValidates(p: LinkParams, q0: seq<Param>, link: Url)
    requires p.rid >= 0 && p.pi >= 0 && p.pk >= 0 && p.ps != [] && NoDot(p.ps)
    requires link.query == TrackingQuery(q0, LinkComponents(p))
    ensures MissingMessages(ParseTrackingUrl(WellFormed(link)).value, 7) == []
  {
    GeneratedLinkParses(p, q0, link);
    var parsed := ParseTrackingUrl(WellFormed(link)).value;
    assert StartsWith(LinkComponents(p).utm_campaign, "pk");
    NoMessagesIffComplete(parsed, 7);
  }
}
