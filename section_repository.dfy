/**
 * The section repository (src/infrastructure/repositories/SectionRepository.ts):
 * home-page sections and their businesses mapped field by field. The HTTP
 * call is left out; the response's section list is an input.
 */
module SectionRepository {
  import opened Js
  import opened Entities

  datatype RatingDto = RatingDto(average: real, count: int)

  /** A business as the sections endpoint returns it. */
  datatype BusinessDto = BusinessDto(
    id: int,
    name: string,
    slug: string,
    about: Option<string>,
    category_id: int,
    category_slug: Option<string>,
    logo: Option<string>,
    cover_image: Option<string>,
    attributes: Option<map<string, string>>,
    view_count: int,
    rating: RatingDto)

  datatype CtaDto = CtaDto(
    title: Option<string>,
    category_slug: Option<string>,
    tags: seq<string>,
    filters: map<string, string>)

  /** A section as the endpoint returns it. */
  datatype SectionDto = SectionDto(
    id: int,
    title: string,
    title_ar: Option<string>,
    background_color: Option<string>,
    display_order: int,
    business_limit: int,
    page_title: Option<string>,
    page_description: Option<string>,
    display_title: string,
    display_description: string,
    cta: CtaDto,
    businesses: seq<BusinessDto>)

  /**
   * `mapBusinessDTO`: the card title is the name and the card text the about
   * text, or `''` when that is absent or empty; the business is always open.
   */
  function MapBusinessDto(dto: BusinessDto): (b: Business)
    ensures b.display_title == Some(dto.name)
    ensures b.display_description == Some(if StringTruthy(dto.about) then dto.about.value else "")
    ensures b.name == dto.name && b.name_ar == dto.name && b.about == dto.about && b.about_ar == dto.about
    ensures b.is_open
    ensures b.rating.average == dto.rating.average && b.rating.count == dto.rating.count
    ensures b.views_count == dto.view_count
    ensures b.whatsapp_number.None? && b.contact_numbers.None? && b.location.None? && b.tags.None?
  {
    Business(
      id := dto.id,
      slug := dto.slug,
      name := dto.name,
      name_ar := dto.name,
      about := dto.about,
      about_ar := dto.about,
      category_id := dto.category_id,
      category_slug := dto.category_slug,
      logo := dto.logo,
      cover_image := dto.cover_image,
      rating := Rating(dto.rating.average, dto.rating.count),
      views_count := dto.view_count,
      attributes := dto.attributes,
      is_open := true,
      whatsapp_number := None,
      contact_numbers := None,
      email := None,
      website := None,
      address := None,
      location := None,
      social_media := None,
      tags := None,
      available_tabs := None,
      display_title := Some(dto.name),
      display_description := Some(StringOr(dto.about, Some("")).value))
  }

  /** The card text is never absent, and is `''` exactly when the about text is absent or empty. */
  lemma DisplayDescriptionEmpty(dto: BusinessDto)
    ensures MapBusinessDto(dto).display_description.Some?
    ensures MapBusinessDto(dto).display_description == Some("") <==> !StringTruthy(dto.about)
  {
  }

  /**
   * `mapSectionDTO`: every scalar and call-to-action field is copied, and
   * the businesses are mapped one by one in order.
   */
  function MapSectionDto(dto: SectionDto): (s: Section)
    ensures s.id == dto.id && s.title == dto.title && s.title_ar == dto.title_ar
    ensures s.background_color == dto.background_color && s.display_order == dto.display_order
    ensures s.business_limit == dto.business_limit
    ensures s.page_title == dto.page_title && s.page_description == dto.page_description
    ensures s.display_title == dto.display_title && s.display_description == dto.display_description
    ensures s.cta == SectionCta(dto.cta.title, dto.cta.category_slug, dto.cta.tags, dto.cta.filters)
    ensures |s.businesses| == |dto.businesses|
    ensures forall i :: 0 <= i < |dto.businesses| ==> s.businesses[i] == MapBusinessDto(dto.businesses[i])
  {
    Section(
      id := dto.id,
      title := dto.title,
      title_ar := dto.title_ar,
      background_color := dto.background_color,
      display_order := dto.display_order,
      business_limit := dto.business_limit,
      page_title := dto.page_title,
      page_description := dto.page_description,
      display_title := dto.display_title,
      display_description := dto.display_description,
      cta := SectionCta(dto.cta.title, dto.cta.category_slug, dto.cta.tags, dto.cta.filters),
      businesses := MapSeq(MapBusinessDto, dto.businesses))
  }

  /**
   * `getAllSections`: the sections in response order, one for one; they are
   * neither sorted by `display_order` nor filtered, and a section's
   * `business_limit` does not cut its business list.
   */
  function AllSections(sections: seq<SectionDto>): (r: seq<Section>)
    ensures |r| == |sections|
    ensures forall i :: 0 <= i < |sections| ==> r[i] == MapSectionDto(sections[i])
  {
    MapSeq(MapSectionDto, sections)
  }

  /** The display orders come out exactly as they came in, sorted or not. */
  lemma AllSectionsKeepOrder(sections: seq<SectionDto>)
    ensures var r := AllSections(sections);
      forall i :: 0 <= i < |sections| ==>
        r[i].display_order == sections[i].display_order
        && |r[i].businesses| == |sections[i].businesses|
  {
  }
}
