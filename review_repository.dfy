/**
 * The review repository (src/infrastructure/repositories/ReviewRepository.ts):
 * the snake_case review records renamed to the camelCase entity, the
 * summary mapping, the page/limit defaults of the listing and the body of
 * a new review. The HTTP calls are left out.
 */
module ReviewRepository {
  import opened Js
  import opened JsString
  import opened UrlSearchParams
  import opened Entities

  /** A review as the backend returns it. */
  datatype ReviewDto = ReviewDto(
    id: int,
    business_id: int,
    user_id: int,
    user_name: string,
    user_avatar: Option<string>,
    rating: int,
    comment: string,
    created_at: string)

  /** `mapReviewDTOToReview`: each field renamed, its value unchanged. */
  function MapReviewDto(dto: ReviewDto): (r: Review)
    ensures r.helpfulCount.None? && r.isHelpful.None?
  {
    Review(dto.id, dto.business_id, dto.user_id, dto.user_name, dto.user_avatar,
           dto.rating, dto.comment, dto.created_at, None, None)
  }

  /** The backend record a review stands for: the renaming read backwards. */
  function ReviewToDto(r: Review): ReviewDto {
    ReviewDto(r.id, r.businessId, r.userId, r.userName, r.userAvatar, r.rating, r.comment, r.createdAt)
  }

  /**
   * The renaming loses nothing: mapping a record and reading it back gives
   * the record, and a review without the two helpfulness fields is the map
   * of its own record.
   */
  lemma MapReviewDtoRoundTrip(dto: ReviewDto, r: Review)
    ensures ReviewToDto(MapReviewDto(dto)) == dto
    ensures r.helpfulCount.None? && r.isHelpful.None? ==> MapReviewDto(ReviewToDto(r)) == r
  {
  }

  /** Different records map to different reviews. */
  lemma MapReviewDtoInjective(a: ReviewDto, b: ReviewDto)
    requires MapReviewDto(a) == MapReviewDto(b)
    ensures a == b
  {
    MapReviewDtoRoundTrip(a, MapReviewDto(a));
    MapReviewDtoRoundTrip(b, MapReviewDto(b));
  }

  datatype SummaryDto = SummaryDto(average_rating: real, total_reviews: int, rating_breakdown: map<string, int>)

  /** `mapReviewSummaryDTOToReviewSummary`: the `summary` object's three fields, renamed. */
  function MapSummaryDto(dto: SummaryDto): (s: ReviewSummary)
    ensures s.averageRating == dto.average_rating
    ensures s.totalReviews == dto.total_reviews
    ensures s.ratingBreakdown == dto.rating_breakdown
  {
    ReviewSummary(dto.average_rating, dto.total_reviews, dto.rating_breakdown)
  }

  /** `page = 1` and `limit = 10` as default parameters. */
  const DefaultPage := 1
  const DefaultLimit := 10

  /**
   * The `params` of `getReviewsBySlug`: defaults replace only a missing
   * argument, so an explicit `0` is sent as `0`.
   */
  function ReviewsParams(page: Option<int>, limit: Option<int>): (pairs: seq<Pair>)
    ensures |pairs| == 2 && pairs[0].0 == "page" && pairs[1].0 == "limit"
    ensures ParseInt(pairs[0].1) == ValueOr(page, DefaultPage)
    ensures ParseInt(pairs[1].1) == ValueOr(limit, DefaultLimit)
  {
    [("page", IntToString(ValueOr(page, DefaultPage))), ("limit", IntToString(ValueOr(limit, DefaultLimit)))]
  }

  datatype ReviewsPageDto = ReviewsPageDto(
    reviews: seq<ReviewDto>,
    total: int,
    page: int,
    limit: int,
    has_more: bool)

  /** The `ReviewsResponse` built from the response data. */
  function MapReviewsPage(data: ReviewsPageDto): (r: ReviewsResponse)
    ensures |r.reviews| == |data.reviews|
    ensures forall i :: 0 <= i < |data.reviews| ==> ReviewToDto(r.reviews[i]) == data.reviews[i]
    ensures r.total == data.total && r.page == data.page && r.limit == data.limit
    ensures r.hasMore == data.has_more
  {
    var reviews := MapSeq(MapReviewDto, data.reviews);
    forall i | 0 <= i < |data.reviews| ensures ReviewToDto(reviews[i]) == data.reviews[i] {
      MapReviewDtoRoundTrip(data.reviews[i], reviews[i]);
    }
    ReviewsResponse(reviews, data.total, data.page, data.limit, data.has_more)
  }

  /** The body `createReview` posts; an absent image list is left out of the JSON. */
  datatype CreateReviewRequest = CreateReviewRequest(rating: int, comment: string, image_urls: Option<seq<string>>)

  function CreateReviewBody(rating: int, comment: string, imageUrls: Option<seq<string>>): (body: CreateReviewRequest)
    ensures body.rating == rating && body.comment == comment && body.image_urls == imageUrls
  {
    CreateReviewRequest(rating, comment, imageUrls)
  }
}
