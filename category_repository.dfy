/**
 * The category repository (src/infrastructure/repositories/CategoryRepository.ts):
 * the backend's business record mapped to the view model, and the query of
 * `getBusinessesByCategory`, built on a `URLSearchParams` step by step.
 * The HTTP calls are left out; response bodies are inputs.
 */
module CategoryRepository {
  import opened Js
  import opened JsString
  import opened UrlSearchParams
  import opened Entities
  import opened Paging

  /** A business as the category endpoint returns it. */
  datatype BusinessDto = BusinessDto(
    id: int,
    name: string,
    slug: string,
    about: Option<string>,
    category_id: int,
    category_slug: Option<string>,
    owner_id: Option<int>,
    phone: Option<string>,
    email: Option<string>,
    website: Option<string>,
    address: Option<string>,
    latitude: Option<real>,
    longitude: Option<real>,
    logo: Option<string>,
    cover_image: Option<string>,
    attributes: Option<map<string, string>>,
    view_count: int,
    rating_avg: real,
    rating_count: int,
    tags: Option<seq<string>>,
    created_at: string,
    updated_at: string)

  /**
   * `mapBusinessDTO`: the single-language name and about fill both language
   * slots, the flat rating fields become a `Rating`, the phone fills both
   * contact slots, and the business is always shown as open.
   */
  function MapBusinessDto(dto: BusinessDto, locale: string): (b: Business)
    ensures b.id == dto.id && b.slug == dto.slug
    ensures b.name == dto.name && b.name_ar == dto.name
    ensures b.about == dto.about && b.about_ar == dto.about
    ensures b.category_id == dto.category_id && b.category_slug == dto.category_slug
    ensures b.rating.average == dto.rating_avg && b.rating.count == dto.rating_count
    ensures b.views_count == dto.view_count
    ensures b.whatsapp_number == dto.phone && b.contact_numbers == dto.phone
    ensures b.is_open
    ensures b.location.None? && b.tags.None? && b.social_media.None? && b.available_tabs.None?
  {
    Business(
      id := dto.id,
      slug := dto.slug,
      name := dto.name,
      name_ar := dto.name,
      about := dto.about,
      about_ar := dto.about,
      category_id := dto.category_id,
      category_slug := dto.category_slug,
      logo := dto.logo,
      cover_image := dto.cover_image,
      rating := Rating(dto.rating_avg, dto.rating_count),
      views_count := dto.view_count,
      attributes := dto.attributes,
      is_open := true,
      whatsapp_number := dto.phone,
      contact_numbers := dto.phone,
      email := dto.email,
      website := dto.website,
      address := dto.address,
      location := None,
      social_media := None,
      tags := None,
      available_tabs := None,
      display_title := None,
      display_description := None)
  }

  /**
   * The mapping ignores the locale and drops the owner, the coordinates, the
   * tag slugs and the timestamps: records that differ only there map alike.
   */
  lemma MapBusinessDtoDrops(
    dto: BusinessDto, locale: string, otherLocale: string, owner: Option<int>,
    latitude: Option<real>, longitude: Option<real>, tags: Option<seq<string>>,
    created: string, updated: string)
    ensures MapBusinessDto(dto, locale)
         == MapBusinessDto(dto.(owner_id := owner, latitude := latitude, longitude := longitude,
                                tags := tags, created_at := created, updated_at := updated), otherLocale)
  {
  }

  /** The `params` argument of `getBusinessesByCategory`; `filters` lists its entries in order. */
  datatype CategoryQueryParams = CategoryQueryParams(
    filters: Option<seq<Pair>>,
    sort: Option<string>,
    page: Option<int>,
    limit: Option<int>,
    tags: Option<seq<string>>)

  /** A filter entry is sent when its value is neither `''` nor `'all'`. */
  predicate KeepFilter(value: string) {
    value != "" && value != "all"
  }

  /** The filter entries that are sent, in entry order. */
  function KeptFilters(entries: seq<Pair>): (kept: seq<Pair>)
    ensures |kept| <= |entries|
  {
    if entries == [] then []
    else
      var last := entries[|entries| - 1];
      KeptFilters(entries[..|entries| - 1]) + (if KeepFilter(last.1) then [last] else [])
  }

  /** An entry is sent exactly when it is among the entries and its value is kept. */
  lemma {:induction false} KeptFiltersMember(entries: seq<Pair>, x: Pair)
    ensures x in KeptFilters(entries) <==> x in entries && KeepFilter(x.1)
  {
    if entries != [] {
      var last := entries[|entries| - 1];
      assert entries == entries[..|entries| - 1] + [last];
      KeptFiltersMember(entries[..|entries| - 1], x);
    }
  }

  /** Selecting entries distributes over concatenation, so their order is kept. */
  lemma {:induction false} KeptFiltersConcat(a: seq<Pair>, b: seq<Pair>)
    ensures KeptFilters(a + b) == KeptFilters(a) + KeptFilters(b)
  {
    if b == [] {
      assert a + b == a;
    } else {
      var init := b[..|b| - 1];
      assert (a + b)[..|a + b| - 1] == a + init;
      KeptFiltersConcat(a, init);
    }
  }

  function SortPart(sort: Option<string>): seq<Pair> {
    if StringTruthy(sort) then [("sort", sort.value)] else []
  }

  function TagsPart(tags: Option<seq<string>>): seq<Pair> {
    if tags.Some? && |tags.value| > 0 then [("tags", Join(tags.value, ","))] else []
  }

  /** The query `getBusinessesByCategory` sends. */
  function CategoryQuery(p: CategoryQueryParams): seq<Pair> {
    PageAndLimit(p.page, p.limit) + KeptFilters(ValueOr(p.filters, [])) + SortPart(p.sort) + TagsPart(p.tags)
  }

  /** The query construction, as the repository does it: append by append. */
  method BuildCategoryQuery(p: CategoryQueryParams) returns (query: seq<Pair>)
    ensures query == CategoryQuery(p)
  {
    var params := new SearchParams([("page", IntToString(NumberOr(p.page, 1))), ("limit", IntToString(NumberOr(p.limit, 20)))]);
    assert params.list == PageAndLimit(p.page, p.limit);
    if p.filters.Some? {
      AppendFilters(params, p.filters.value);
    }
    ghost var filtered := params.list;
    if p.sort.Some? && p.sort.value != "" {
      params.Append("sort", p.sort.value);
    }
    assert params.list == filtered + SortPart(p.sort);
    if p.tags.Some? && |p.tags.value| > 0 {
      params.Append("tags", Join(p.tags.value, ","));
    }
    query := params.list;
  }

  /** The `Object.entries(filters).forEach` loop: append each kept entry. */
  method AppendFilters(params: SearchParams, entries: seq<Pair>)
    modifies params
    ensures params.list == old(params.list) + KeptFilters(entries)
  {
    var i := 0;
    while i < |entries|
      invariant 0 <= i <= |entries|
      invariant params.list == old(params.list) + KeptFilters(entries[..i])
    {
      var (key, value) := entries[i];
      KeptFiltersStep(entries, i);
      if value != "" && value != "all" {
        params.Append(key, value);
      }
      i := i + 1;
    }
    assert entries[..|entries|] == entries;
  }

  lemma KeptFiltersStep(entries: seq<Pair>, i: nat)
    requires i < |entries|
    ensures KeptFilters(entries[..i + 1])
         == KeptFilters(entries[..i]) + (if KeepFilter(entries[i].1) then [entries[i]] else [])
  {
    assert entries[..i + 1][..i] == entries[..i];
  }

  /**
   * `page` and `limit` come first and read back as the requested numbers,
   * with `1` and `20` when absent or `0`.
   */
  lemma CategoryQueryPageLimit(p: CategoryQueryParams)
    ensures var query := CategoryQuery(p);
      && |query| >= 2 && query[0].0 == "page" && query[1].0 == "limit"
      && ParseInt(query[0].1) == (if NumberTruthy(p.page) then p.page.value else 1)
      && ParseInt(query[1].1) == (if NumberTruthy(p.limit) then p.limit.value else 20)
  {
    PageAndLimitReadBack(p.page, p.limit);
  }

  /**
   * Under any name other than the four fixed ones, the query holds exactly
   * the values of the filter entries with that name that are neither `''`
   * nor `'all'`.
   */
  lemma CategoryQueryFilters(p: CategoryQueryParams, name: string, value: string)
    requires name != "page" && name != "limit" && name != "sort" && name != "tags"
    ensures value in AllValues(CategoryQuery(p), name)
        <==> (name, value) in ValueOr(p.filters, []) && KeepFilter(value)
  {
    var kept := KeptFilters(ValueOr(p.filters, []));
    var head := PageAndLimit(p.page, p.limit);
    AllValuesConcat(head + kept + SortPart(p.sort), TagsPart(p.tags), name);
    AllValuesConcat(head + kept, SortPart(p.sort), name);
    AllValuesConcat(head, kept, name);
    PageAndLimitNames(p.page, p.limit, name);
    AllValuesMember(kept, name, value);
    KeptFiltersMember(ValueOr(p.filters, []), (name, value));
  }

  /**
   * `sort` and `tags` close the query: the tags, comma-joined, are the last
   * pair when the list is non-empty, the sort comes just before them, and
   * with neither the query is the page, the limit and the kept filters.
   */
  lemma CategoryQueryTail(p: CategoryQueryParams)
    ensures var query := CategoryQuery(p);
      && (p.tags.Some? && |p.tags.value| > 0 ==> query[|query| - 1] == ("tags", Join(p.tags.value, ",")))
      && (StringTruthy(p.sort) ==> query[|query| - 1 - |TagsPart(p.tags)|] == ("sort", p.sort.value))
      && (!StringTruthy(p.sort) && TagsPart(p.tags) == [] ==>
            |query| == 2 + |KeptFilters(ValueOr(p.filters, []))|)
  {
  }

  /** The data of the category businesses endpoint. */
  datatype BusinessesPage = BusinessesPage(
    businesses: seq<BusinessDto>,
    total: int,
    page: int,
    limit: int,
    has_more: bool)

  datatype BusinessesResult = BusinessesResult(
    businesses: seq<Business>,
    total: int,
    page: int,
    limit: int,
    has_more: bool)

  /** The value `getBusinessesByCategory` returns for a response. */
  function MapBusinessesPage(data: BusinessesPage, locale: string): (r: BusinessesResult)
    ensures |r.businesses| == |data.businesses|
    ensures forall i :: 0 <= i < |data.businesses| ==> r.businesses[i] == MapBusinessDto(data.businesses[i], locale)
    ensures r.total == data.total && r.page == data.page && r.limit == data.limit && r.has_more == data.has_more
  {
    BusinessesResult(MapSeq((dto: BusinessDto) => MapBusinessDto(dto, locale), data.businesses),
                     data.total, data.page, data.limit, data.has_more)
  }
}
