/**
 * The category listing view
 * (src/presentation/components/BusinessListView/BusinessListView.tsx): the
 * value shown by the verified/featured dropdown, and the tag chips with
 * their links and active state. The page that feeds it reads its filter
 * flags from the query (src/app/[locale]/directories/[category]/page.tsx).
 */
module BusinessListView {
  import opened Js
  import opened UrlSearchParams
  import opened Entities
  import opened FilterDropdown

  /** The `filters` prop. */
  datatype ListFilters = ListFilters(
    verified: Option<bool>,
    featured: Option<bool>,
    rating: Option<real>,
    sort: string)

  /** The values of `verifiedOptions`, in display order. */
  const VerifiedOptionValues: seq<string> := ["all", "verified", "featured", "both"]

  /** `verifiedOptions`, with the translated labels given. */
  function VerifiedOptions(allLabel: string, verifiedLabel: string, featuredLabel: string, bothLabel: string): (options: seq<FilterOption>)
    ensures |options| == |VerifiedOptionValues|
    ensures forall i :: 0 <= i < |options| ==> options[i].value == VerifiedOptionValues[i]
  {
    [FilterOption(allLabel, "all"), FilterOption(verifiedLabel, "verified"),
     FilterOption(featuredLabel, "featured"), FilterOption(bothLabel, "both")]
  }

  /** `getVerifiedValue()`: the dropdown value the two flags stand for. */
  function GetVerifiedValue(filters: Option<ListFilters>): (r: string)
    ensures r in VerifiedOptionValues
    ensures var v := filters.Some? && BoolTruthy(filters.value.verified);
      var f := filters.Some? && BoolTruthy(filters.value.featured);
      && (r == "both" <==> v && f)
      && (r == "verified" <==> v && !f)
      && (r == "featured" <==> !v && f)
      && (r == "all" <==> !v && !f)
  {
    if filters.Some? && BoolTruthy(filters.value.verified) && BoolTruthy(filters.value.featured) then "both"
    else if filters.Some? && BoolTruthy(filters.value.verified) then "verified"
    else if filters.Some? && BoolTruthy(filters.value.featured) then "featured"
    else "all"
  }

  /**
   * `searchParams.name === 'true' ? true : undefined`: a repeated parameter
   * arrives as an array and so never equals `'true'`.
   */
  function QueryFlag(query: seq<Pair>, name: string): (r: Option<bool>)
    ensures r == Some(true) <==> AllValues(query, name) == ["true"]
    ensures r != Some(false)
  {
    if AllValues(query, name) == ["true"] then Some(true) else None
  }

  /** The `filters` prop the page builds from its query; rating and sort are parsed elsewhere. */
  function FiltersFromQuery(query: seq<Pair>, rating: Option<real>, sort: string): ListFilters {
    ListFilters(QueryFlag(query, "verified"), QueryFlag(query, "featured"), rating, sort)
  }

  /**
   * Choosing `v` in the verified dropdown and reading the flags back from the
   * new query shows `v` again (`''` reads back as `'all'`), whatever the query
   * held before.
   */
  lemma VerifiedRoundTrip(query: seq<Pair>, v: string, rating: Option<real>, sort: string)
    requires v in VerifiedOptionValues || v == ""
    ensures GetVerifiedValue(Some(FiltersFromQuery(SelectedParams(query, "filter", v), rating, sort)))
         == if v == "" then "all" else v
  {
    if IsAll(v) {
      SelectAllRemoves(query, "filter", v);
    } else {
      SelectFilterFlags(query, v);
    }
  }

  /** What a chip shows: the "All" text, or a tag's name with its icon as badge. */
  datatype ChipText = AllTags | TagName(name: string, badge: Option<string>)

  datatype Chip = Chip(text: ChipText, href: string, active: bool)

  /** `selectedTag={searchParams.tag || null}`. */
  function SelectedTag(tag: Option<string>): (r: Option<string>)
    ensures r.Some? <==> StringTruthy(tag)
    ensures r.Some? ==> r == tag
  {
    if StringTruthy(tag) then tag else None
  }

  function CategoryHref(locale: string, categorySlug: string): string {
    "/" + locale + "/directories/" + categorySlug
  }

  /** One tag chip; the name is the same in both locales. */
  function TagChip(locale: string, categorySlug: string, selectedTag: Option<string>, tag: Tag): Chip {
    Chip(TagName(tag.name, if StringTruthy(tag.icon) then tag.icon else None),
         CategoryHref(locale, categorySlug) + "?tag=" + tag.slug,
         selectedTag == Some(tag.slug))
  }

  /**
   * The chip row: nothing when there are no tags (`tags` defaults to `[]`),
   * otherwise "All" followed by one chip per tag in order.
   */
  function FilterChips(locale: string, categorySlug: string, tags: Option<seq<Tag>>, selectedTag: Option<string>): (chips: seq<Chip>)
    ensures var ts := ValueOr(tags, []);
      && (ts == [] <==> chips == [])
      && (ts != [] ==> |chips| == |ts| + 1)
  {
    var ts := ValueOr(tags, []);
    if ts == [] then []
    else
      var all := Chip(AllTags, CategoryHref(locale, categorySlug), selectedTag.None?);
      [all] + MapSeq((tag: Tag) => TagChip(locale, categorySlug, selectedTag, tag), ts)
  }

  /**
   * The chips' links and states: "All" links to the bare category page and
   * is active exactly without a selected tag; the chip of tag `i` links with
   * `?tag=` its slug and is active exactly when that slug is selected.
   */
  lemma ChipRules(locale: string, categorySlug: string, tags: seq<Tag>, selectedTag: Option<string>)
    requires tags != []
    ensures var chips := FilterChips(locale, categorySlug, Some(tags), selectedTag);
      && chips[0].text == AllTags
      && chips[0].href == CategoryHref(locale, categorySlug)
      && (chips[0].active <==> selectedTag.None?)
      && forall i :: 0 <= i < |tags| ==>
           && chips[i + 1].text.TagName? && chips[i + 1].text.name == tags[i].name
           && chips[i + 1].href == CategoryHref(locale, categorySlug) + "?tag=" + tags[i].slug
           && (chips[i + 1].active <==> selectedTag == Some(tags[i].slug))
  {
    var chips := FilterChips(locale, categorySlug, Some(tags), selectedTag);
    var tail := MapSeq((tag: Tag) => TagChip(locale, categorySlug, selectedTag, tag), tags);
    assert chips == [chips[0]] + tail;
    forall i | 0 <= i < |tags|
      ensures chips[i + 1] == TagChip(locale, categorySlug, selectedTag, tags[i])
    {
      assert chips[i + 1] == tail[i];
    }
  }

  /** With distinct tag slugs, at most one chip is active. */
  lemma AtMostOneActive(locale: string, categorySlug: string, tags: seq<Tag>, selectedTag: Option<string>)
    requires forall i, j :: 0 <= i < j < |tags| ==> tags[i].slug != tags[j].slug
    ensures var chips := FilterChips(locale, categorySlug, Some(tags), selectedTag);
      forall i, j :: 0 <= i < j < |chips| ==> !(chips[i].active && chips[j].active)
  {
    if tags != [] {
      ChipRules(locale, categorySlug, tags, selectedTag);
      var chips := FilterChips(locale, categorySlug, Some(tags), selectedTag);
      forall i, j | 0 <= i < j < |chips|
        ensures !(chips[i].active && chips[j].active)
      {
        if i > 0 {
          assert tags[i - 1].slug != tags[j - 1].slug;
        }
      }
    }
  }
}
