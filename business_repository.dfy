/**
 * The business repository (src/infrastructure/repositories/BusinessRepository.ts):
 * the profile record mapped to the view model, the queries of
 * `getAllBusinesses`, `searchBusinesses` and `getReviews`, and the `||`
 * fallbacks that turn a missing response part into an empty value.
 * The HTTP calls are left out; response bodies are inputs, and
 * `response.data?` being absent is `None`.
 */
module BusinessRepository {
  import opened Js
  import opened JsString
  import opened UrlSearchParams
  import opened Entities
  import opened Paging

  /** The untyped `contact_info` object, with the fields the mapper reads. */
  datatype ContactInfo = ContactInfo(
    phone: Option<string>,
    whatsapp: Option<string>,
    email: Option<string>,
    website: Option<string>,
    address: Option<string>)

  /** A business as the profile and search endpoints return it. */
  datatype BusinessDto = BusinessDto(
    id: int,
    user_id: int,
    name: string,
    slug: string,
    category_slug: Option<string>,
    about: Option<string>,
    logo: Option<string>,
    cover_image: Option<string>,
    ad_image: Option<string>,
    contact_info: Option<ContactInfo>,
    social_media: Option<SocialMedia>,
    location: Option<Location>,
    attributes: Option<map<string, string>>,
    view_count: int,
    rating: Rating,
    status: string,
    tags: Option<seq<Tag>>,
    available_tabs: Option<AvailableTabs>,
    created_at: string,
    updated_at: string)

  /** `contactInfo.phone || contactInfo.whatsapp`, with `contact_info || {}`. */
  function Phone(contact: Option<ContactInfo>): (phone: Option<string>)
    ensures contact.None? ==> phone.None?
    ensures contact.Some? && StringTruthy(contact.value.phone) ==> phone == contact.value.phone
    ensures contact.Some? && !StringTruthy(contact.value.phone) ==> phone == contact.value.whatsapp
  {
    if contact.None? then None else StringOr(contact.value.phone, contact.value.whatsapp)
  }

  /** A field of `contact_info || {}`. */
  function ContactField(contact: Option<ContactInfo>, field: ContactInfo -> Option<string>): Option<string> {
    if contact.None? then None else field(contact.value)
  }

  /**
   * `mapBusinessDTO`: both contact slots get the phone (the WhatsApp number
   * when the phone is falsy), the category id is always `0` and the business
   * always open, and the nested records are passed through.
   */
  function MapBusinessDto(dto: BusinessDto, locale: string): (b: Business)
    ensures b.whatsapp_number == Phone(dto.contact_info) && b.contact_numbers == Phone(dto.contact_info)
    ensures dto.contact_info.None? ==>
      b.whatsapp_number.None? && b.contact_numbers.None? && b.email.None? && b.website.None? && b.address.None?
    ensures dto.contact_info.Some? ==>
      b.email == dto.contact_info.value.email && b.website == dto.contact_info.value.website
      && b.address == dto.contact_info.value.address
    ensures b.category_id == 0 && b.is_open
    ensures b.name == dto.name && b.name_ar == dto.name && b.about == dto.about && b.about_ar == dto.about
    ensures b.rating == dto.rating && b.views_count == dto.view_count
    ensures b.location == dto.location && b.social_media == dto.social_media
    ensures b.tags == dto.tags && b.available_tabs == dto.available_tabs
  {
    var phone := Phone(dto.contact_info);
    Business(
      id := dto.id,
      slug := dto.slug,
      name := dto.name,
      name_ar := dto.name,
      about := dto.about,
      about_ar := dto.about,
      category_id := 0,
      category_slug := dto.category_slug,
      logo := dto.logo,
      cover_image := dto.cover_image,
      rating := dto.rating,
      views_count := dto.view_count,
      attributes := dto.attributes,
      is_open := true,
      whatsapp_number := phone,
      contact_numbers := phone,
      email := ContactField(dto.contact_info, (c: ContactInfo) => c.email),
      website := ContactField(dto.contact_info, (c: ContactInfo) => c.website),
      address := ContactField(dto.contact_info, (c: ContactInfo) => c.address),
      location := dto.location,
      social_media := dto.social_media,
      tags := dto.tags,
      available_tabs := dto.available_tabs,
      display_title := None,
      display_description := None)
  }

  /**
   * The owner, the ad image, the status, the timestamps and the locale do not
   * reach the view model.
   */
  lemma MapBusinessDtoDrops(
    dto: BusinessDto, locale: string, otherLocale: string, user: int,
    adImage: Option<string>, status: string, created: string, updated: string)
    ensures MapBusinessDto(dto, locale)
         == MapBusinessDto(dto.(user_id := user, ad_image := adImage, status := status,
                                created_at := created, updated_at := updated), otherLocale)
  {
  }

  /** The `params` argument of `getAllBusinesses`. */
  datatype AllBusinessesParams = AllBusinessesParams(page: Option<int>, limit: Option<int>, featured: Option<bool>)

  /** The query `getAllBusinesses` sends: page and limit only. */
  function AllBusinessesQuery(p: AllBusinessesParams): seq<Pair> {
    PageAndLimit(p.page, p.limit)
  }

  /** The `featured` argument is never sent and makes no difference. */
  lemma AllBusinessesIgnoresFeatured(p: AllBusinessesParams, featured: Option<bool>)
    ensures AllBusinessesQuery(p) == AllBusinessesQuery(p.(featured := featured))
    ensures AllValues(AllBusinessesQuery(p), "featured") == []
  {
    PageAndLimitNames(p.page, p.limit, "featured");
  }

  /** The `filters` argument of `searchBusinesses`. */
  datatype SearchFilters = SearchFilters(
    category: Option<string>,
    min_rating: Option<real>,
    verified_only: Option<bool>,
    sort: Option<string>,
    page: Option<int>,
    limit: Option<int>)

  /** A parameter the search may send: its name and, when it is sent, its value. */
  type Candidate = (string, Option<string>)

  /**
   * The seven parameters of `searchBusinesses` in the order they are tried;
   * each has a value only when its argument is truthy. `show` stands for
   * `String` on a fractional number.
   */
  function SearchCandidates(query: string, filters: Option<SearchFilters>, show: real -> string): (cs: seq<Candidate>)
    ensures |cs| == 7
  {
    var f := filters;
    [("q", if query != "" then Some(query) else None),
     ("category", if f.Some? && StringTruthy(f.value.category) then f.value.category else None),
     ("min_rating", if f.Some? && RealTruthy(f.value.min_rating) then Some(show(f.value.min_rating.value)) else None),
     ("verified_only", if f.Some? && BoolTruthy(f.value.verified_only) then Some("true") else None),
     ("sort", if f.Some? && StringTruthy(f.value.sort) then f.value.sort else None),
     ("page", if f.Some? && NumberTruthy(f.value.page) then Some(IntToString(f.value.page.value)) else None),
     ("limit", if f.Some? && NumberTruthy(f.value.limit) then Some(IntToString(f.value.limit.value)) else None)]
  }

  /** The pairs of the candidates that have a value, in order. */
  function Present(cs: seq<Candidate>): (pairs: seq<Pair>)
    ensures |pairs| <= |cs|
  {
    if cs == [] then []
    else
      var last := cs[|cs| - 1];
      Present(cs[..|cs| - 1]) + (if last.1.Some? then [(last.0, last.1.value)] else [])
  }

  /** The query `searchBusinesses` sends. */
  function SearchQuery(query: string, filters: Option<SearchFilters>, show: real -> string): seq<Pair> {
    Present(SearchCandidates(query, filters, show))
  }

  lemma PresentStep(cs: seq<Candidate>, k: nat)
    requires k < |cs|
    ensures Present(cs[..k + 1])
         == Present(cs[..k]) + (if cs[k].1.Some? then [(cs[k].0, cs[k].1.value)] else [])
  {
    assert cs[..k + 1][..k] == cs[..k];
  }

  /** The search query, built as the repository builds it: one guarded append at a time. */
  method BuildSearchQuery(query: string, filters: Option<SearchFilters>, show: real -> string)
    returns (pairs: seq<Pair>)
    ensures pairs == SearchQuery(query, filters, show)
  {
    ghost var cs := SearchCandidates(query, filters, show);
    var params := new SearchParams([]);
    assert cs[..0] == [];
    PresentStep(cs, 0);
    if query != "" {
      params.Append("q", query);
    }
    assert params.list == Present(cs[..1]);
    AppendFilterParams(params, query, filters, show);
    AppendSortAndPaging(params, query, filters, show);
    assert cs[..7] == cs;
    pairs := params.list;
  }

  /** The category, rating and verified steps of `searchBusinesses`. */
  method AppendFilterParams(params: SearchParams, query: string, filters: Option<SearchFilters>, show: real -> string)
    requires params.list == Present(SearchCandidates(query, filters, show)[..1])
    modifies params
    ensures params.list == Present(SearchCandidates(query, filters, show)[..4])
  {
    ghost var cs := SearchCandidates(query, filters, show);
    PresentStep(cs, 1);
    assert cs[1] == ("category", if filters.Some? && StringTruthy(filters.value.category) then filters.value.category else None);
    if filters.Some? && filters.value.category.Some? && filters.value.category.value != "" {
      params.Append("category", filters.value.category.value);
    }
    assert params.list == Present(cs[..2]);
    PresentStep(cs, 2);
    assert cs[2] == ("min_rating", if filters.Some? && RealTruthy(filters.value.min_rating) then Some(show(filters.value.min_rating.value)) else None);
    if filters.Some? && filters.value.min_rating.Some? && filters.value.min_rating.value != 0.0 {
      params.Append("min_rating", show(filters.value.min_rating.value));
    }
    assert params.list == Present(cs[..3]);
    PresentStep(cs, 3);
    assert cs[3] == ("verified_only", if filters.Some? && BoolTruthy(filters.value.verified_only) then Some("true") else None);
    if filters.Some? && filters.value.verified_only == Some(true) {
      params.Append("verified_only", "true");
    }
    assert params.list == Present(cs[..4]);
  }

  /** The sort, page and limit steps of `searchBusinesses`. */
  method AppendSortAndPaging(params: SearchParams, query: string, filters: Option<SearchFilters>, show: real -> string)
    requires params.list == Present(SearchCandidates(query, filters, show)[..4])
    modifies params
    ensures params.list == Present(SearchCandidates(query, filters, show)[..7])
  {
    ghost var cs := SearchCandidates(query, filters, show);
    PresentStep(cs, 4);
    if filters.Some? && filters.value.sort.Some? && filters.value.sort.value != "" {
      params.Append("sort", filters.value.sort.value);
    }
    assert params.list == Present(cs[..5]);
    PresentStep(cs, 5);
    if filters.Some? && filters.value.page.Some? && filters.value.page.value != 0 {
      params.Append("page", IntToString(filters.value.page.value));
    }
    assert params.list == Present(cs[..6]);
    PresentStep(cs, 6);
    if filters.Some? && filters.value.limit.Some? && filters.value.limit.value != 0 {
      params.Append("limit", IntToString(filters.value.limit.value));
    }
  }

  /** The values of the list in a candidate's slot. */
  function Sent(value: Option<string>): seq<string> {
    if value.Some? then [value.value] else []
  }

  /** A name none of the candidates carries has no value in the query. */
  lemma {:induction false} PresentAbsent(cs: seq<Candidate>, name: string)
    requires forall i :: 0 <= i < |cs| ==> cs[i].0 != name
    ensures AllValues(Present(cs), name) == []
  {
    if cs != [] {
      var last := cs[|cs| - 1];
      PresentAbsent(cs[..|cs| - 1], name);
      AllValuesConcat(Present(cs[..|cs| - 1]), if last.1.Some? then [(last.0, last.1.value)] else [], name);
    }
  }

  /** With distinct names, each candidate's name carries exactly its own value. */
  lemma {:induction false} PresentValues(cs: seq<Candidate>, k: nat)
    requires k < |cs|
    requires forall i, j :: 0 <= i < j < |cs| ==> cs[i].0 != cs[j].0
    ensures AllValues(Present(cs), cs[k].0) == Sent(cs[k].1)
  {
    var init := cs[..|cs| - 1];
    var last := cs[|cs| - 1];
    var tail := if last.1.Some? then [(last.0, last.1.value)] else [];
    AllValuesConcat(Present(init), tail, cs[k].0);
    if k == |cs| - 1 {
      PresentAbsent(init, cs[k].0);
    } else {
      PresentValues(init, k);
    }
  }

  /** The rank of a search parameter in the order the repository appends them. */
  function SearchRank(name: string): int {
    if name == "q" then 0
    else if name == "category" then 1
    else if name == "min_rating" then 2
    else if name == "verified_only" then 3
    else if name == "sort" then 4
    else if name == "page" then 5
    else if name == "limit" then 6
    else 7
  }

  /** Dropping absent candidates keeps the names in rising rank. */
  lemma {:induction false} PresentOrdered(cs: seq<Candidate>)
    requires forall i, j :: 0 <= i < j < |cs| ==> SearchRank(cs[i].0) < SearchRank(cs[j].0)
    ensures forall i, j :: 0 <= i < j < |Present(cs)| ==> SearchRank(Present(cs)[i].0) < SearchRank(Present(cs)[j].0)
    ensures forall p :: p in Present(cs) ==> exists i :: 0 <= i < |cs| && cs[i].0 == p.0
  {
    if cs != [] {
      var init := cs[..|cs| - 1];
      PresentOrdered(init);
      var pairs := Present(cs);
      var head := Present(init);
      assert pairs == head + (if cs[|cs| - 1].1.Some? then [(cs[|cs| - 1].0, cs[|cs| - 1].1.value)] else []);
      forall p | p in head ensures SearchRank(p.0) < SearchRank(cs[|cs| - 1].0) {
        var i :| 0 <= i < |init| && init[i].0 == p.0;
      }
      forall i, j | 0 <= i < j < |pairs| ensures SearchRank(pairs[i].0) < SearchRank(pairs[j].0) {
        if j >= |head| {
          assert pairs[i] == head[i];
          assert head[i] in head;
          assert pairs[j].0 == cs[|cs| - 1].0;
          assert SearchRank(head[i].0) < SearchRank(cs[|cs| - 1].0);
        } else {
          assert pairs[i] == head[i] && pairs[j] == head[j];
          assert SearchRank(head[i].0) < SearchRank(head[j].0);
        }
      }
    }
  }

  /**
   * Each search parameter is sent, once and in the fixed order q, category,
   * min_rating, verified_only, sort, page, limit, exactly when its argument
   * is truthy: an empty query, a `0` rating or page, and a `false` flag are
   * left out.
   */
  lemma SearchQueryParams(query: string, filters: Option<SearchFilters>, show: real -> string)
    ensures var pairs := SearchQuery(query, filters, show);
      var f := filters;
      && AllValues(pairs, "q") == (if query != "" then [query] else [])
      && AllValues(pairs, "category") == (if f.Some? && StringTruthy(f.value.category) then [f.value.category.value] else [])
      && AllValues(pairs, "min_rating")
         == (if f.Some? && RealTruthy(f.value.min_rating) then [show(f.value.min_rating.value)] else [])
      && AllValues(pairs, "verified_only") == (if f.Some? && BoolTruthy(f.value.verified_only) then ["true"] else [])
      && AllValues(pairs, "sort") == (if f.Some? && StringTruthy(f.value.sort) then [f.value.sort.value] else [])
      && AllValues(pairs, "page") == (if f.Some? && NumberTruthy(f.value.page) then [IntToString(f.value.page.value)] else [])
      && AllValues(pairs, "limit") == (if f.Some? && NumberTruthy(f.value.limit) then [IntToString(f.value.limit.value)] else [])
  {
    var cs := SearchCandidates(query, filters, show);
    SearchCandidatesRanked(query, filters, show);
    PresentValues(cs, 0);
    PresentValues(cs, 1);
    PresentValues(cs, 2);
    PresentValues(cs, 3);
    PresentValues(cs, 4);
    PresentValues(cs, 5);
    PresentValues(cs, 6);
  }

  /** The parameters that are sent appear in the fixed order q, category, min_rating, verified_only, sort, page, limit. */
  lemma SearchQueryOrdered(query: string, filters: Option<SearchFilters>, show: real -> string)
    ensures var pairs := SearchQuery(query, filters, show);
      forall i, j :: 0 <= i < j < |pairs| ==> SearchRank(pairs[i].0) < SearchRank(pairs[j].0)
  {
    SearchCandidatesRanked(query, filters, show);
    PresentOrdered(SearchCandidates(query, filters, show));
  }

  /** The candidates' names rise strictly in rank, so they are distinct. */
  lemma SearchCandidatesRanked(query: string, filters: Option<SearchFilters>, show: real -> string)
    ensures var cs := SearchCandidates(query, filters, show);
      && (forall i, j :: 0 <= i < j < |cs| ==> SearchRank(cs[i].0) < SearchRank(cs[j].0))
      && (forall i, j :: 0 <= i < j < |cs| ==> cs[i].0 != cs[j].0)
  {
    var cs := SearchCandidates(query, filters, show);
    var names := seq(|cs|, i requires 0 <= i < |cs| => cs[i].0);
    assert names == ["q", "category", "min_rating", "verified_only", "sort", "page", "limit"];
    forall i | 0 <= i < |cs| ensures SearchRank(cs[i].0) == i {
      assert cs[i].0 == names[i];
    }
  }

  /** The `params` argument of `getReviews`. */
  datatype PageRequest = PageRequest(page: Option<int>, limit: Option<int>)

  /** The query `getReviews` sends. */
  function ReviewsQuery(request: PageRequest): seq<Pair> {
    PageAndLimit(request.page, request.limit)
  }

  /** The reviews data as the endpoint may return it, every part possibly missing. */
  datatype ReviewsData = ReviewsData(
    reviews: Option<seq<BusinessReview>>,
    total: Option<int>,
    page: Option<int>,
    limit: Option<int>,
    has_more: Option<bool>)

  datatype ReviewsResult = ReviewsResult(
    reviews: seq<BusinessReview>,
    total: int,
    page: int,
    limit: int,
    has_more: bool)

  function DataPage(data: Option<ReviewsData>): Option<int> {
    if data.Some? then data.value.page else None
  }

  function DataLimit(data: Option<ReviewsData>): Option<int> {
    if data.Some? then data.value.limit else None
  }

  /** The record `getReviews` returns for a response's `data`. */
  function ReviewsFallback(data: Option<ReviewsData>, request: PageRequest): (r: ReviewsResult)
    ensures data.None? ==>
      r == ReviewsResult([], 0, NumberOr(request.page, 1), NumberOr(request.limit, 20), false)
    ensures data.Some? ==> r.reviews == ValueOr(data.value.reviews, []) && r.total == NumberOr(data.value.total, 0)
    ensures r.page == (if NumberTruthy(DataPage(data)) then DataPage(data).value
                       else if NumberTruthy(request.page) then request.page.value else 1)
    ensures r.limit == (if NumberTruthy(DataLimit(data)) then DataLimit(data).value
                        else if NumberTruthy(request.limit) then request.limit.value else 20)
    ensures r.page != 0 && r.limit != 0
    ensures r.has_more <==> data.Some? && data.value.has_more == Some(true)
  {
    if data.None? then
      ReviewsResult([], 0, NumberOr(request.page, 1), NumberOr(request.limit, 20), false)
    else
      var d := data.value;
      ReviewsResult(
        ValueOr(d.reviews, []),
        NumberOr(d.total, 0),
        NumberOr(d.page, NumberOr(request.page, 1)),
        NumberOr(d.limit, NumberOr(request.limit, 20)),
        BoolOrFalse(d.has_more))
  }

  /**
   * When the response does not say its page or limit, the result reports the
   * page and limit the query asked for.
   */
  lemma ReviewsFallbackMatchesQuery(data: Option<ReviewsData>, request: PageRequest)
    requires !NumberTruthy(DataPage(data)) && !NumberTruthy(DataLimit(data))
    ensures var query := ReviewsQuery(request);
      var r := ReviewsFallback(data, request);
      ParseInt(query[0].1) == r.page && ParseInt(query[1].1) == r.limit
  {
    PageAndLimitReadBack(request.page, request.limit);
  }

  /** The data of the working-hours endpoint. */
  datatype HoursData = HoursData(working_hours: Option<seq<WorkingHours>>, is_open: Option<bool>, status_text: Option<string>)

  /** `getWorkingHours`: the hours, or `[]` when the data or the list is missing. */
  function WorkingHoursOf(data: Option<HoursData>): (r: seq<WorkingHours>)
    ensures data.None? || data.value.working_hours.None? ==> r == []
    ensures data.Some? && data.value.working_hours.Some? ==> r == data.value.working_hours.value
  {
    if data.None? then [] else ValueOr(data.value.working_hours, [])
  }

  datatype ServicesData = ServicesData(services: Option<seq<ForSaleService>>, total: Option<int>)

  /** `getServices`: the services, or `[]`. */
  function ServicesOf(data: Option<ServicesData>): (r: seq<ForSaleService>)
    ensures data.None? || data.value.services.None? ==> r == []
    ensures data.Some? && data.value.services.Some? ==> r == data.value.services.value
  {
    if data.None? then [] else ValueOr(data.value.services, [])
  }

  datatype FaqsData = FaqsData(faqs: Option<seq<FAQ>>, total: Option<int>)

  /** `getFAQs`: the questions, or `[]`. */
  function FaqsOf(data: Option<FaqsData>): (r: seq<FAQ>)
    ensures data.None? || data.value.faqs.None? ==> r == []
    ensures data.Some? && data.value.faqs.Some? ==> r == data.value.faqs.value
  {
    if data.None? then [] else ValueOr(data.value.faqs, [])
  }

  /** `getBranches`: the data is the list itself, or `[]`. */
  function BranchesOf(data: Option<seq<Branch>>): (r: seq<Branch>)
    ensures data.None? ==> r == []
    ensures data.Some? ==> r == data.value
  {
    ValueOr(data, [])
  }

  datatype MediaPage = MediaPage(media: seq<BusinessMedia>, total: int)

  /** `getMedia`: the data object, or an empty page. */
  function MediaOf(data: Option<MediaPage>): (r: MediaPage)
    ensures data.None? ==> r == MediaPage([], 0)
    ensures data.Some? ==> r == data.value
  {
    if data.Some? then data.value else MediaPage([], 0)
  }

  datatype AboutHours = AboutHours(hours: Option<seq<WorkingHours>>, is_open: Option<bool>, status_text: Option<string>)

  datatype AboutData = AboutData(
    branches: Option<seq<Branch>>,
    working_hours: Option<AboutHours>,
    faqs: Option<seq<FAQ>>)

  datatype AboutResult = AboutResult(
    branches: seq<Branch>,
    workingHours: seq<WorkingHours>,
    faqs: seq<FAQ>,
    isOpen: Option<bool>,
    statusText: Option<string>)

  function AboutHoursOf(data: Option<AboutData>): Option<AboutHours> {
    if data.Some? then data.value.working_hours else None
  }

  /**
   * `getAboutData`: each list falls back to `[]`, and the open state and
   * status text are absent exactly when the hours block is.
   */
  function AboutOf(data: Option<AboutData>): (r: AboutResult)
    ensures data.None? ==> r == AboutResult([], [], [], None, None)
    ensures data.Some? ==> r.branches == ValueOr(data.value.branches, []) && r.faqs == ValueOr(data.value.faqs, [])
    ensures AboutHoursOf(data).None? ==> r.workingHours == [] && r.isOpen.None? && r.statusText.None?
    ensures AboutHoursOf(data).Some? ==>
      r.workingHours == ValueOr(AboutHoursOf(data).value.hours, [])
      && r.isOpen == AboutHoursOf(data).value.is_open
      && r.statusText == AboutHoursOf(data).value.status_text
  {
    var hours := AboutHoursOf(data);
    AboutResult(
      if data.Some? then ValueOr(data.value.branches, []) else [],
      if hours.Some? then ValueOr(hours.value.hours, []) else [],
      if data.Some? then ValueOr(data.value.faqs, []) else [],
      if hours.Some? then hours.value.is_open else None,
      if hours.Some? then hours.value.status_text else None)
  }

  /** The data of the listing endpoints. */
  datatype BusinessesPage = BusinessesPage(
    businesses: seq<BusinessDto>,
    total: int,
    page: int,
    limit: int,
    has_more: bool)

  datatype BusinessesResult = BusinessesResult(
    businesses: seq<Business>,
    total: int,
    page: int,
    limit: int,
    has_more: bool)

  /** The value `getAllBusinesses` returns. */
  function MapBusinessesPage(data: BusinessesPage, locale: string): (r: BusinessesResult)
    ensures |r.businesses| == |data.businesses|
    ensures forall i :: 0 <= i < |data.businesses| ==> r.businesses[i] == MapBusinessDto(data.businesses[i], locale)
    ensures r.total == data.total && r.page == data.page && r.limit == data.limit && r.has_more == data.has_more
  {
    BusinessesResult(MapSeq((dto: BusinessDto) => MapBusinessDto(dto, locale), data.businesses),
                     data.total, data.page, data.limit, data.has_more)
  }

  /** The value `searchBusinesses` returns: the mapped businesses and the total only. */
  function MapSearchPage(data: BusinessesPage, locale: string): (r: (seq<Business>, int))
    ensures |r.0| == |data.businesses| && r.1 == data.total
    ensures forall i :: 0 <= i < |data.businesses| ==> r.0[i] == MapBusinessDto(data.businesses[i], locale)
  {
    (MapSeq((dto: BusinessDto) => MapBusinessDto(dto, locale), data.businesses), data.total)
  }
}
