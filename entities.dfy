/**
 * The frontend's view models (src/domain/entities): plain records with
 * optional fields. They carry no behaviour; the repositories build them.
 * Numbers that are only copied (averages, coordinates, prices) are `real`;
 * identifiers, counts and page numbers are `int`.
 */
module Entities {
  import opened Js

  datatype Tag = Tag(
    id: int,
    name: string,
    name_ar: string,
    slug: string,
    tagType: string,
    icon: Option<string>,
    description: Option<string>,
    description_ar: Option<string>,
    is_active: bool,
    created_at: string,
    updated_at: string)

  datatype Category = Category(
    id: int,
    slug: string,
    name: string,
    name_ar: string,
    icon: Option<string>,
    description: Option<string>,
    description_ar: Option<string>,
    parent_id: Option<int>,
    businesses_count: Option<int>)

  datatype AvailableTabs = AvailableTabs(
    has_branches: bool,
    has_working_hours: bool,
    has_faqs: bool,
    has_services: bool,
    has_media: bool,
    has_reviews: bool)

  datatype Rating = Rating(average: real, count: int)

  datatype Location = Location(latitude: Option<real>, longitude: Option<real>)

  datatype SocialMedia = SocialMedia(
    facebook: Option<string>,
    instagram: Option<string>,
    twitter: Option<string>)

  /**
   * A business as the views see it. `whatsapp_number`, `contact_numbers` and
   * the two `display_*` fields are set by the repositories although the
   * entity type does not declare them.
   */
  datatype Business = Business(
    id: int,
    slug: string,
    name: string,
    name_ar: string,
    about: Option<string>,
    about_ar: Option<string>,
    category_id: int,
    category_slug: Option<string>,
    logo: Option<string>,
    cover_image: Option<string>,
    rating: Rating,
    views_count: int,
    attributes: Option<map<string, string>>,
    is_open: bool,
    whatsapp_number: Option<string>,
    contact_numbers: Option<string>,
    email: Option<string>,
    website: Option<string>,
    address: Option<string>,
    location: Option<Location>,
    social_media: Option<SocialMedia>,
    tags: Option<seq<Tag>>,
    available_tabs: Option<AvailableTabs>,
    display_title: Option<string>,
    display_description: Option<string>)

  datatype WorkingHours = WorkingHours(
    id: int,
    business_id: int,
    day: int,
    open_time: string,
    close_time: string,
    is_closed: bool,
    created_at: string,
    updated_at: string)

  datatype Branch = Branch(
    id: int,
    name: string,
    name_ar: string,
    address: string,
    address_ar: string,
    latitude: Option<real>,
    longitude: Option<real>,
    contact_number: Option<string>)

  /** The review record of the business profile (Business.ts). */
  datatype BusinessReview = BusinessReview(
    id: int,
    user_id: int,
    user_name: string,
    rating: int,
    comment: Option<string>,
    created_at: string)

  datatype FAQ = FAQ(
    id: int,
    business_id: int,
    question: string,
    question_ar: string,
    answer: string,
    answer_ar: string,
    display_order: int,
    is_active: bool,
    created_at: string,
    updated_at: string)

  datatype MediaType = Image | Video

  datatype BusinessMedia = BusinessMedia(
    id: int,
    business_id: int,
    mediaType: MediaType,
    url: string,
    thumbnail_url: Option<string>,
    caption: Option<string>,
    display_order: int,
    created_at: string,
    updated_at: string)

  /** The review record of the reviews feature (Review.ts). */
  datatype Review = Review(
    id: int,
    businessId: int,
    userId: int,
    userName: string,
    userAvatar: Option<string>,
    rating: int,
    comment: string,
    createdAt: string,
    helpfulCount: Option<int>,
    isHelpful: Option<bool>)

  datatype ReviewSummary = ReviewSummary(
    averageRating: real,
    totalReviews: int,
    ratingBreakdown: map<string, int>)

  datatype ReviewsResponse = ReviewsResponse(
    reviews: seq<Review>,
    total: int,
    page: int,
    limit: int,
    hasMore: bool)

  datatype SectionCta = SectionCta(
    title: Option<string>,
    category_slug: Option<string>,
    tags: seq<string>,
    filters: map<string, string>)

  /**
   * A home-page section. `page_title`, `page_description`, `display_title` and
   * `display_description` are set by the repository although the entity type
   * does not declare them.
   */
  datatype Section = Section(
    id: int,
    title: string,
    title_ar: Option<string>,
    background_color: Option<string>,
    display_order: int,
    business_limit: int,
    page_title: Option<string>,
    page_description: Option<string>,
    display_title: string,
    display_description: string,
    cta: SectionCta,
    businesses: seq<Business>)

  datatype ForSaleService = ForSaleService(
    id: string,
    icon: string,
    name: string,
    price: Option<real>,
    price_start_from: bool)

  datatype ForSaleListing = ForSaleListing(
    id: string,
    title: string,
    description: string,
    price: real,
    currency: string,
    images: seq<string>,
    created_at: string,
    url: Option<string>,
    location: Option<string>)

  datatype ForSaleListingsResponse = ForSaleListingsResponse(
    listings: seq<ForSaleListing>,
    total: int,
    page: int,
    page_size: int)

  datatype ForSaleServicesResponse = ForSaleServicesResponse(
    services: seq<ForSaleService>,
    total: int)
}
