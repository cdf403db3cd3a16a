/**
 * SEO rules of a filtered category listing (src/lib/seo.ts): which filters
 * go into the canonical URL, whether the page may be indexed, and how the
 * title and the meta description are assembled.
 *
 * `parseFloat` and `Number#toString` on reals are parameters: `parseFloat`
 * yields `None` for NaN, and every comparison with NaN is false.
 */
module Seo {
  import opened Js
  import opened JsString
  import opened UrlSearchParams

  /** The listing filters as read from the query string. */
  datatype FilterParams = FilterParams(
    tag: Option<string>,
    verified: Option<string>,
    featured: Option<string>,
    rating: Option<string>,
    sort: Option<string>)

  /** The translated text fragments of the `seo` namespace. */
  datatype SeoTranslations = SeoTranslations(
    verified: string,
    starsRating: string,
    siteName: string,
    discover: string,
    best: string,
    verifiedText: string,
    withRating: string,
    results: string,
    on4Sale: string)

  const NoFilters := FilterParams(None, None, None, None, None)

  /** `filters.verified === 'true'`. */
  predicate VerifiedOn(f: FilterParams) {
    f.verified == Some("true")
  }

  /** `filters.rating && parseFloat(filters.rating) >= 4`. */
  predicate HighRating(f: FilterParams, parseFloat: string -> Option<real>) {
    && StringTruthy(f.rating)
    && parseFloat(f.rating.value).Some?
    && parseFloat(f.rating.value).value >= 4.0
  }

  /** `filters.rating && parseFloat(filters.rating) < 4`. */
  predicate LowRating(f: FilterParams, parseFloat: string -> Option<real>) {
    && StringTruthy(f.rating)
    && parseFloat(f.rating.value).Some?
    && parseFloat(f.rating.value).value < 4.0
  }

  /** The canonical URL without its query. */
  function CanonicalBase(baseUrl: string, locale: string, category: string): string {
    baseUrl + "/" + locale + "/directories/" + category
  }

  /** The pairs `buildCanonicalUrl` appends, in the order it appends them. */
  function CanonicalQuery(f: FilterParams, parseFloat: string -> Option<real>): seq<Pair> {
    (if StringTruthy(f.tag) then [("tag", f.tag.value)] else [])
    + (if VerifiedOn(f) then [("verified", "true")] else [])
    + (if HighRating(f, parseFloat) then [("rating", f.rating.value)] else [])
  }

  /**
   * `buildCanonicalUrl`: the base URL, followed by `?` and the serialized
   * query only when some filter qualifies.
   */
  method BuildCanonicalUrl(
    baseUrl: string, locale: string, category: string, filters: FilterParams,
    parseFloat: string -> Option<real>, encode: string -> string)
    returns (url: string)
    ensures CanonicalQuery(filters, parseFloat) == [] ==> url == CanonicalBase(baseUrl, locale, category)
    ensures CanonicalQuery(filters, parseFloat) != [] ==>
      url == CanonicalBase(baseUrl, locale, category) + "?" + Serialize(CanonicalQuery(filters, parseFloat), encode)
  {
    var canonical := baseUrl + "/" + locale + "/directories/" + category;
    var params := new SearchParams([]);
    if StringTruthy(filters.tag) {
      params.Append("tag", filters.tag.value);
    }
    if filters.verified == Some("true") {
      params.Append("verified", "true");
    }
    if StringTruthy(filters.rating) && parseFloat(filters.rating.value).Some?
       && parseFloat(filters.rating.value).value >= 4.0 {
      params.Append("rating", filters.rating.value);
    }
    assert params.list == CanonicalQuery(filters, parseFloat);
    var queryString := params.ToString(encode);
    SerializeEmpty(params.list, encode);
    url := if queryString != "" then canonical + "?" + queryString else canonical;
  }

  /**
   * What the canonical query holds, key by key: `tag` iff it is non-empty,
   * `verified=true` iff `verified` is exactly `'true'`, the original `rating`
   * string iff it parses to at least 4, and never `sort` or `featured`.
   */
  lemma CanonicalQueryKeys(f: FilterParams, parseFloat: string -> Option<real>)
    ensures var q := CanonicalQuery(f, parseFloat);
      && AllValues(q, "tag") == (if StringTruthy(f.tag) then [f.tag.value] else [])
      && AllValues(q, "verified") == (if VerifiedOn(f) then ["true"] else [])
      && AllValues(q, "rating") == (if HighRating(f, parseFloat) then [f.rating.value] else [])
      && AllValues(q, "sort") == []
      && AllValues(q, "featured") == []
  {
    CanonicalQueryValues(f, parseFloat, "tag");
    CanonicalQueryValues(f, parseFloat, "verified");
    CanonicalQueryValues(f, parseFloat, "rating");
    CanonicalQueryValues(f, parseFloat, "sort");
    CanonicalQueryValues(f, parseFloat, "featured");
  }

  /** The values of one name in the canonical query, step by step. */
  lemma CanonicalQueryValues(f: FilterParams, parseFloat: string -> Option<real>, name: string)
    ensures AllValues(CanonicalQuery(f, parseFloat), name)
         == (if StringTruthy(f.tag) && name == "tag" then [f.tag.value] else [])
            + (if VerifiedOn(f) && name == "verified" then ["true"] else [])
            + (if HighRating(f, parseFloat) && name == "rating" then [f.rating.value] else [])
  {
    var a := if StringTruthy(f.tag) then [("tag", f.tag.value)] else [];
    var b := if VerifiedOn(f) then [("verified", "true")] else [];
    var c := if HighRating(f, parseFloat) then [("rating", f.rating.value)] else [];
    AllValuesConcat(a + b, c, name);
    AllValuesConcat(a, b, name);
    AllValuesAtMostOne(a, name);
    AllValuesAtMostOne(b, name);
    AllValuesAtMostOne(c, name);
  }

  /** A list of at most one pair has that pair's value under its name, and nothing else. */
  lemma AllValuesAtMostOne(list: seq<Pair>, name: string)
    requires |list| <= 1
    ensures AllValues(list, name) == if list != [] && list[0].0 == name then [list[0].1] else []
  {
    if list != [] {
      assert list[1..] == [];
    }
  }

  /** The keys of the canonical query come in the order tag, verified, rating. */
  lemma CanonicalQueryOrder(f: FilterParams, parseFloat: string -> Option<real>)
    ensures var q := CanonicalQuery(f, parseFloat);
      forall i, j :: 0 <= i < j < |q| ==> KeyRank(q[i].0) < KeyRank(q[j].0)
  {
  }

  function KeyRank(key: string): int {
    if key == "tag" then 0 else if key == "verified" then 1 else 2
  }

  /** With no qualifying filter the canonical URL is the bare listing path. */
  lemma CanonicalWithoutFilters(
    baseUrl: string, locale: string, category: string, f: FilterParams,
    parseFloat: string -> Option<real>)
    requires !StringTruthy(f.tag) && !VerifiedOn(f) && !HighRating(f, parseFloat)
    ensures CanonicalQuery(f, parseFloat) == []
  {
  }

  /** `shouldIndexPage`. */
  function ShouldIndexPage(f: FilterParams, parseFloat: string -> Option<real>): (r: bool)
    ensures r <==>
      || StringTruthy(f.tag)
      || StringTruthy(f.verified)
      || (StringTruthy(f.rating) && !LowRating(f, parseFloat))
      || (!StringTruthy(f.rating) && !StringTruthy(f.sort) && !StringTruthy(f.featured))
  {
    if StringTruthy(f.sort) && !StringTruthy(f.tag) && !StringTruthy(f.verified) && !StringTruthy(f.rating) then
      false
    else if StringTruthy(f.featured) && !StringTruthy(f.tag) && !StringTruthy(f.verified) && !StringTruthy(f.rating) then
      false
    else if LowRating(f, parseFloat) && !StringTruthy(f.tag) && !StringTruthy(f.verified) then
      false
    else
      true
  }

  /**
   * The named cases: sort-only, featured-only and a low rating alone are not
   * indexed; a tag, or no filter at all, is; so is a rating that does not
   * parse, since NaN is not below 4.
   */
  lemma ShouldIndexCases(f: FilterParams, parseFloat: string -> Option<real>)
    ensures StringTruthy(f.sort) && f.tag == f.verified == f.featured == f.rating == None
      ==> !ShouldIndexPage(f, parseFloat)
    ensures StringTruthy(f.featured) && f.tag == f.verified == f.sort == f.rating == None
      ==> !ShouldIndexPage(f, parseFloat)
    ensures LowRating(f, parseFloat) && f.tag == f.verified == None
      ==> !ShouldIndexPage(f, parseFloat)
    ensures StringTruthy(f.tag) ==> ShouldIndexPage(f, parseFloat)
    ensures ShouldIndexPage(NoFilters, parseFloat)
    ensures StringTruthy(f.rating) && parseFloat(f.rating.value).None? ==> ShouldIndexPage(f, parseFloat)
  {
  }

  /** `t.starsRating` or `t.withRating` with `{rating}` replaced by the parsed rating. */
  function RatingText(
    template: string, f: FilterParams,
    parseFloat: string -> Option<real>, show: real -> string): string
    requires HighRating(f, parseFloat)
  {
    ReplaceFirst(template, "{rating}", show(parseFloat(f.rating.value).value))
  }

  /** The segments of the title, in the order `buildPageTitle` pushes them. */
  function TitleSegments(
    categoryName: string, f: FilterParams, t: SeoTranslations, tagName: Option<string>,
    parseFloat: string -> Option<real>, show: real -> string): (parts: seq<string>)
    ensures parts != [] && parts[|parts| - 1] == categoryName
  {
    (if StringTruthy(tagName) then [tagName.value] else [])
    + (if VerifiedOn(f) then [t.verified] else [])
    + (if HighRating(f, parseFloat) then [RatingText(t.starsRating, f, parseFloat, show)] else [])
    + [categoryName]
  }

  /**
   * The filter steps both builders share: push the verified text when
   * `verified` is `'true'`, then the rating text when the rating parses to
   * at least 4.
   */
  method PushFilterSegments(
    parts: seq<string>, filters: FilterParams, verifiedText: string, ratingTemplate: string,
    parseFloat: string -> Option<real>, show: real -> string)
    returns (pushed: seq<string>)
    ensures pushed == parts
      + (if VerifiedOn(filters) then [verifiedText] else [])
      + (if HighRating(filters, parseFloat) then [RatingText(ratingTemplate, filters, parseFloat, show)] else [])
  {
    pushed := parts;
    if filters.verified == Some("true") {
      pushed := pushed + [verifiedText];
    }
    if StringTruthy(filters.rating) && parseFloat(filters.rating.value).Some?
       && parseFloat(filters.rating.value).value >= 4.0 {
      var rating := parseFloat(filters.rating.value).value;
      pushed := pushed + [ReplaceFirst(ratingTemplate, "{rating}", show(rating))];
    }
  }

  /**
   * `buildPageTitle`: the segments joined by `' - '`, then `' | '` and the
   * site name, in every case, the category segment last.
   */
  method BuildPageTitle(
    categoryName: string, filters: FilterParams, t: SeoTranslations, tagName: Option<string>,
    parseFloat: string -> Option<real>, show: real -> string)
    returns (title: string)
    ensures title == Join(TitleSegments(categoryName, filters, t, tagName, parseFloat, show), " - ")
                     + " | " + t.siteName
    ensures EndsWith(title, categoryName + " | " + t.siteName)
  {
    var parts: seq<string> := [];
    if StringTruthy(tagName) {
      parts := parts + [tagName.value];
    }
    parts := PushFilterSegments(parts, filters, t.verified, t.starsRating, parseFloat, show);
    var init := parts;
    parts := parts + [categoryName];
    assert parts == TitleSegments(categoryName, filters, t, tagName, parseFloat, show);
    if |parts| > 1 {
      title := Join(parts, " - ") + " | " + t.siteName;
      JoinLast(init, categoryName, " - ");
      assert title == Join(init, " - ") + " - " + (categoryName + " | " + t.siteName);
    } else {
      title := categoryName + " | " + t.siteName;
    }
  }

  /** The segment of the title that stands for one canonical query pair. */
  function SegmentFor(
    p: Pair, f: FilterParams, t: SeoTranslations, tagName: Option<string>,
    parseFloat: string -> Option<real>, show: real -> string): string
  {
    if p.0 == "tag" then (if tagName.Some? then tagName.value else "")
    else if p.0 == "verified" then t.verified
    else if HighRating(f, parseFloat) then RatingText(t.starsRating, f, parseFloat, show)
    else ""
  }

  /**
   * The title carries a verified or a rating segment under exactly the
   * conditions that put `verified` or `rating` into the canonical URL, in the
   * same order; when a tag name is given exactly when the tag filter is, the
   * segments before the category match the canonical pairs one for one.
   */
  lemma TitleMatchesCanonical(
    categoryName: string, f: FilterParams, t: SeoTranslations, tagName: Option<string>,
    parseFloat: string -> Option<real>, show: real -> string)
    requires StringTruthy(tagName) <==> StringTruthy(f.tag)
    ensures var q := CanonicalQuery(f, parseFloat);
      var parts := TitleSegments(categoryName, f, t, tagName, parseFloat, show);
      && |parts| == |q| + 1
      && (forall i :: 0 <= i < |q| ==> parts[i] == SegmentFor(q[i], f, t, tagName, parseFloat, show))
  {
  }

  /** The middle part of the description: what is being recommended. */
  function Subject(categoryName: string, t: SeoTranslations, tagName: Option<string>): string {
    if StringTruthy(tagName) then t.best + " " + tagName.value else t.best + " " + categoryName
  }

  /** The results count fragment of the description. */
  function ResultsText(t: SeoTranslations, totalResults: int): string {
    "- " + ReplaceFirst(t.results, "{count}", IntToString(totalResults))
  }

  /** The parts of the description, in the order `buildPageDescription` pushes them. */
  function DescriptionParts(
    categoryName: string, f: FilterParams, t: SeoTranslations, tagName: Option<string>,
    totalResults: Option<int>, parseFloat: string -> Option<real>, show: real -> string): seq<string>
  {
    [t.discover, Subject(categoryName, t, tagName)]
    + (if VerifiedOn(f) then [t.verifiedText] else [])
    + (if HighRating(f, parseFloat) then [RatingText(t.withRating, f, parseFloat, show)] else [])
    + (if totalResults.Some? then [ResultsText(t, totalResults.value)] else [])
    + [t.on4Sale]
  }

  /**
   * `buildPageDescription`: the parts joined by single spaces; it starts with
   * the discover phrase and the subject, and ends with `on4Sale`.
   */
  method BuildPageDescription(
    categoryName: string, filters: FilterParams, t: SeoTranslations, tagName: Option<string>,
    totalResults: Option<int>, parseFloat: string -> Option<real>, show: real -> string)
    returns (description: string)
    ensures description
         == Join(DescriptionParts(categoryName, filters, t, tagName, totalResults, parseFloat, show), " ")
    ensures StartsWith(description, t.discover + " " + Subject(categoryName, t, tagName) + " ")
    ensures EndsWith(description, " " + t.on4Sale)
  {
    var parts := DescriptionPartsOf(categoryName, filters, t, tagName, totalResults, parseFloat, show);
    description := Join(parts, " ");
    JoinEnds(parts, " ");
  }

  /** The `parts` array of `buildPageDescription`, pushed to one step at a time. */
  method DescriptionPartsOf(
    categoryName: string, filters: FilterParams, t: SeoTranslations, tagName: Option<string>,
    totalResults: Option<int>, parseFloat: string -> Option<real>, show: real -> string)
    returns (parts: seq<string>)
    ensures parts == DescriptionParts(categoryName, filters, t, tagName, totalResults, parseFloat, show)
  {
    parts := [t.discover];
    if StringTruthy(tagName) {
      parts := parts + [t.best + " " + tagName.value];
    } else {
      parts := parts + [t.best + " " + categoryName];
    }
    assert parts == [t.discover, Subject(categoryName, t, tagName)];
    parts := PushFilterSegments(parts, filters, t.verifiedText, t.withRating, parseFloat, show);
    ghost var withRating := parts;
    if totalResults.Some? {
      parts := parts + ["- " + ReplaceFirst(t.results, "{count}", IntToString(totalResults.value))];
    }
    assert parts == withRating + (if totalResults.Some? then [ResultsText(t, totalResults.value)] else []);
    parts := parts + [t.on4Sale];
  }

  /** A join of three or more parts starts with the first two and ends with the last. */
  lemma JoinEnds(parts: seq<string>, sep: string)
    requires |parts| >= 3
    ensures StartsWith(Join(parts, sep), parts[0] + sep + parts[1] + sep)
    ensures EndsWith(Join(parts, sep), sep + parts[|parts| - 1])
  {
    var n := |parts|;
    var last := sep + parts[n - 1];
    assert parts[..n - 1] + [parts[n - 1]] == parts;
    JoinLast(parts[..n - 1], parts[n - 1], sep);
    var front := Join(parts[..n - 1], sep);
    assert Join(parts, sep) == front + last;
    assert (front + last)[|front + last| - |last|..] == last;
    var head := parts[..2];
    assert parts == head + parts[2..];
    JoinAppend(head, parts[2..], sep);
    assert Join(head, sep) == parts[0] + sep + parts[1] by {
      assert head[1..] == [parts[1]];
    }
    var first := parts[0] + sep + parts[1] + sep;
    assert Join(parts, sep) == first + Join(parts[2..], sep);
  }

  /**
   * The results fragment is the only difference a result count makes: it is
   * inserted just before `on4Sale`.
   */
  lemma DescriptionResultsPart(
    categoryName: string, f: FilterParams, t: SeoTranslations, tagName: Option<string>,
    n: int, parseFloat: string -> Option<real>, show: real -> string)
    ensures var without := DescriptionParts(categoryName, f, t, tagName, None, parseFloat, show);
      DescriptionParts(categoryName, f, t, tagName, Some(n), parseFloat, show)
        == without[..|without| - 1] + [ResultsText(t, n), t.on4Sale]
  {
  }
}
