# fe-directories core in Dafny

This project models the logic core of the 4Sale business-directories web frontend, a Next.js application. The modelled core covers:

- **SEO helpers.** These build the canonical URL of a category listing, decide whether a listing may be indexed, and compose the page title and the meta description.
- **Category listing.** The filter dropdown rewrites the query string when an option is chosen. The listing view derives the dropdown value and the tag chips from that query. The category page turns its query into the repository request.
- **Repositories.** Each one builds a query with `URLSearchParams` and maps backend records onto the view model. Missing response parts fall back to defaults (`|| []`, `|| 0`, `|| params.page || 1`).
- **API client's request interceptor.** It adds the device, language and authorization headers.
- **Small components.** These are the language switcher, the search bar, the category strip of the navbar, the hero banner carousel and the icon renderer.

The model uses these JavaScript conventions:

- **Missing values.** `null` and `undefined` are both `Option.None`.
- **Falsy values.** JavaScript's notion of a falsy value is spelled out per type in module `Js` (`StringTruthy`, `NumberTruthy`, ...). `a || b` becomes `StringOr` or `NumberOr`. `ValueOr` covers `a || b` on arrays and objects, which are always truthy, and default parameters.
- **Query strings.** `URLSearchParams` is an ordered list of name/value pairs (module `UrlSearchParams`). Its `append`, `delete` and `set` follow the WHATWG URL standard. `SearchParams` is a class whose list is updated in place, as the source does.
- **Strings.** `String(n)` for integers and `parseInt` of its output are defined in `JsString`. So are `startsWith`, `includes`, `replace` (first occurrence), `join` and `trim`.
- **Abstract parameters.** `parseFloat`, the conversion of a float to text and percent-encoding are passed in as function parameters.
- **Imperative code stays imperative.** Code that builds a query append by append is a method over a `SearchParams` object. Components with state are classes: the dropdown's `isOpen`, the banner's `currentSlide`, and the interceptor's mutable `config.headers`. Each method is proved equal to a specification function, and the properties are lemmas about that function.

## Model

The category page is `src/app/[locale]/directories/[category]/page.tsx`. Its lines are named in words in the rows below ("page.tsx lines 112-113"). Those rows cite, in the source column, the repository or view code that receives what the page builds.

| member | source | states |
|---|---|---|
| Seo.BuildCanonicalUrl | src/lib/seo.ts:31-59 | the canonical URL is the bare listing path when no filter qualifies, else that path, `?` and the serialized query of the qualifying filters |
| Seo.CanonicalQueryKeys | src/lib/seo.ts:40-55 | the canonical query carries the tag iff it is non-empty, `verified=true` iff the verified filter is `'true'`, the original rating text iff it parses to at least 4, and never `sort` or `featured` |
| Seo.CanonicalQueryOrder | src/lib/seo.ts:41-53 | the canonical parameters come in the order tag, verified, rating |
| Seo.CanonicalWithoutFilters | src/lib/seo.ts:57-58 | with no tag, no verified flag and no high rating, the query is empty (so the URL is the bare path) |
| Seo.ShouldIndexPage | src/lib/seo.ts:65-83 | a page is indexed exactly when it has a tag, or a verified value, or a rating that does not parse below 4, or none of rating/sort/featured |
| Seo.ShouldIndexCases | src/lib/seo.ts:66-82 | sort alone, featured alone and a low rating without tag or verified are not indexed; any tag, no filter at all and an unparsable rating are indexed |
| Seo.PushFilterSegments | src/lib/seo.ts:101-110 | the verified text is pushed iff verified is `'true'`, and the rating text iff the rating is at least 4, in that order |
| Seo.TitleSegments | src/lib/seo.ts:94-113 | the title parts are never empty and always end with the category name |
| Seo.BuildPageTitle | src/lib/seo.ts:88-121 | the title is the parts joined with ` - `, then ` \| ` and the site name; it always ends with the category name and the site name (the one-part branch agrees with the join) |
| Seo.TitleMatchesCanonical | src/lib/seo.ts:97-110 | the title has one segment per canonical query parameter, in the same order, plus the category name |
| Seo.DescriptionPartsOf | src/lib/seo.ts:133-158 | the parts pushed step by step are the specified description parts |
| Seo.BuildPageDescription | src/lib/seo.ts:126-161 | the description is its parts joined by spaces; it starts with the discover text and the subject (the tag, else the category) and ends with the on-4Sale text |
| Seo.DescriptionResultsPart | src/lib/seo.ts:153-158 | a results count adds exactly one part, `- ` and the count text, just before the closing text |
| FilterDropdown.SelectParams | src/presentation/components/FilterDropdown/FilterDropdown.tsx:67-96 | the copy-then-delete/set rewrite yields the specified parameter list |
| FilterDropdown.SelectAllRemoves | src/presentation/components/FilterDropdown/FilterDropdown.tsx:69-77 | choosing `''` or `'all'` removes the parameter, and for `filter` also `verified` and `featured` |
| FilterDropdown.SelectFilterLeavesNoFilter | src/presentation/components/FilterDropdown/FilterDropdown.tsx:69-92 | a `filter` choice never leaves a `filter` parameter |
| FilterDropdown.SelectFilterFlags | src/presentation/components/FilterDropdown/FilterDropdown.tsx:80-92 | `verified`, `featured` and `both` leave exactly the matching `=true` flags and remove the other flag |
| FilterDropdown.SelectOtherSets | src/presentation/components/FilterDropdown/FilterDropdown.tsx:94 | any other parameter ends with exactly the chosen value |
| FilterDropdown.SelectFrame | src/presentation/components/FilterDropdown/FilterDropdown.tsx:67-96 | parameters outside the names the branch touches keep their order and values |
| FilterDropdown.TargetUrlBare | src/presentation/components/FilterDropdown/FilterDropdown.tsx:99 | the target URL is the bare path exactly when no parameter is left, else path, `?` and the query |
| FilterDropdown.FindOption | src/presentation/components/FilterDropdown/FilterDropdown.tsx:105 | finds the first option with the current value, or none when no option has it |
| FilterDropdown.DisplayLabel | src/presentation/components/FilterDropdown/FilterDropdown.tsx:105-106 | the button shows the first matching option's non-empty label, and the dropdown's own label when no option matches or the first match has an empty label |
| FilterDropdown.Dropdown.constructor | src/presentation/components/FilterDropdown/FilterDropdown.tsx:21 | a dropdown starts closed |
| FilterDropdown.Dropdown.Toggle | src/presentation/components/FilterDropdown/FilterDropdown.tsx:114 | the trigger flips the open state |
| FilterDropdown.Dropdown.HandleSelect | src/presentation/components/FilterDropdown/FilterDropdown.tsx:66-102 | selecting navigates to the target URL of the rewritten parameters and closes the dropdown |
| BusinessListView.VerifiedOptions | src/presentation/components/BusinessListView/BusinessListView.tsx:50-55 | the verified dropdown offers all, verified, featured, both, in that order |
| BusinessListView.GetVerifiedValue | src/presentation/components/BusinessListView/BusinessListView.tsx:58-63 | the value is one of the options: `both` iff both flags are set, `verified` or `featured` iff only that one is, `all` iff neither is |
| BusinessListView.QueryFlag | src/presentation/components/BusinessListView/BusinessListView.tsx:19-21 | a flag is `true` exactly when the query's only value for it is `'true'`, and is never `false` (the category page fills the `verified` and `featured` props this way, page.tsx lines 112-113) |
| BusinessListView.VerifiedRoundTrip | src/presentation/components/BusinessListView/BusinessListView.tsx:58-63 | choosing a verified option and reading the flags back from the new query shows the same option, whatever the previous query held |
| BusinessListView.SelectedTag | src/presentation/components/BusinessListView/BusinessListView.tsx:18 | the selected tag is the query's tag when it is non-empty, and no tag otherwise (`searchParams.tag \|\| null` on the category page, page.tsx line 139) |
| BusinessListView.FilterChips | src/presentation/components/BusinessListView/BusinessListView.tsx:88-112 | there are no chips without tags, else one "All" chip plus one per tag |
| BusinessListView.ChipRules | src/presentation/components/BusinessListView/BusinessListView.tsx:91-107 | "All" links to the bare category page and is active iff no tag is selected; tag chip `i` links with `?tag=` its slug and is active iff that slug is selected |
| BusinessListView.AtMostOneActive | src/presentation/components/BusinessListView/BusinessListView.tsx:93-106 | with distinct tag slugs at most one chip is active |
| CategoryPage.SortParam | src/infrastructure/repositories/CategoryRepository.ts:101 | the sort the category page sends is never empty: `'rating'` by default (page.tsx line 115), so `sort` is always appended |
| CategoryPage.RequestAsWritten | src/infrastructure/repositories/CategoryRepository.ts:78-84 | as the category page writes it (page.tsx lines 111-126), the request sets no `filters` field, limit 20 and the sort parameter |
| CategoryPage.AsWrittenDropsFilters | src/infrastructure/repositories/CategoryRepository.ts:93-99 | as written, the query never carries `verified`, `featured` or `min_rating`, since only `params.filters` is read |
| CategoryPage.AsWrittenVerifiedIgnored | src/infrastructure/repositories/CategoryRepository.ts:93-99 | `?verified=true` sets the page's flag (page.tsx line 112), yet the query has no `verified` value |
| CategoryPage.Request | src/infrastructure/repositories/CategoryRepository.ts:79 | the corrected request puts the page's three filters (page.tsx lines 112-114) into `filters` and agrees with the written request elsewhere |
| CategoryPage.RequestSendsFilters | src/infrastructure/repositories/CategoryRepository.ts:93-99 | with the corrected request, the query has `verified=true` and `featured=true` iff those flags are on, and the rating iff it is given and is not `'all'` |
| CategoryPage.FilterEntriesMember | src/infrastructure/repositories/CategoryRepository.ts:93-96 | the forwarded filter entries hold each of the page's filters exactly when it is set |
| CategoryRepository.MapBusinessDto | src/infrastructure/repositories/CategoryRepository.ts:32-57 | the name and about fill both language slots, the rating fields become a rating, the phone fills both contact slots, and the business is always open |
| CategoryRepository.MapBusinessDtoDrops | src/infrastructure/repositories/CategoryRepository.ts:32-57 | the locale, owner, coordinates, tag slugs and timestamps make no difference to the mapped business |
| CategoryRepository.KeptFiltersMember | src/infrastructure/repositories/CategoryRepository.ts:94-96 | a filter entry is sent iff it is among the entries and its value is neither `''` nor `'all'` |
| CategoryRepository.KeptFiltersConcat | src/infrastructure/repositories/CategoryRepository.ts:94-98 | filter entries are sent in entry order |
| CategoryRepository.BuildCategoryQuery | src/infrastructure/repositories/CategoryRepository.ts:87-102 | the query built append by append is the specified category query |
| CategoryRepository.AppendFilters | src/infrastructure/repositories/CategoryRepository.ts:93-99 | the loop appends exactly the kept filter entries after what was there |
| CategoryRepository.CategoryQueryPageLimit | src/infrastructure/repositories/CategoryRepository.ts:87-90 | `page` and `limit` come first and read back as the requested numbers, or 1 and 20 when absent or 0 |
| CategoryRepository.CategoryQueryFilters | src/infrastructure/repositories/CategoryRepository.ts:93-99 | under any other name the query holds exactly the kept filter values with that name |
| CategoryRepository.CategoryQueryTail | src/infrastructure/repositories/CategoryRepository.ts:101-102 | the comma-joined tags are last when there are any, the sort just before them, and with neither the query is page, limit and filters |
| CategoryRepository.MapBusinessesPage | src/infrastructure/repositories/CategoryRepository.ts:109-115 | every business is mapped in order and the paging fields are copied |
| Paging.PageAndLimitReadBack | src/infrastructure/repositories/CategoryRepository.ts:87-90 | `page` and `limit` read back as the requested numbers, with 1 and 20 when absent or 0 |
| Paging.PageAndLimitNames | src/infrastructure/repositories/BusinessRepository.ts:98-101 | the paging query carries no other name |
| BusinessRepository.Phone | src/infrastructure/repositories/BusinessRepository.ts:49-50 | the phone is the contact phone when non-empty, else the WhatsApp number, and none without contact info |
| BusinessRepository.MapBusinessDto | src/infrastructure/repositories/BusinessRepository.ts:47-77 | both contact slots get the phone, the contact fields come from the contact info, the category id is 0, the business is open, and the nested records pass through |
| BusinessRepository.MapBusinessDtoDrops | src/infrastructure/repositories/BusinessRepository.ts:47-77 | the locale, user, ad image, status and timestamps make no difference |
| BusinessRepository.AllBusinessesIgnoresFeatured | src/infrastructure/repositories/BusinessRepository.ts:90-101 | the `featured` argument is never sent and changes nothing |
| BusinessRepository.MapBusinessesPage | src/infrastructure/repositories/BusinessRepository.ts:108-114 | every business is mapped in order and the paging fields are copied |
| BusinessRepository.BuildSearchQuery | src/infrastructure/repositories/BusinessRepository.ts:129-136 | the search query built append by append is the specified one |
| BusinessRepository.AppendFilterParams | src/infrastructure/repositories/BusinessRepository.ts:131-133 | category, rating and verified are appended when truthy |
| BusinessRepository.AppendSortAndPaging | src/infrastructure/repositories/BusinessRepository.ts:134-136 | sort, page and limit are appended when truthy |
| BusinessRepository.SearchQueryParams | src/infrastructure/repositories/BusinessRepository.ts:129-136 | each of the seven names holds exactly its value when that value is truthy and nothing otherwise (`verified_only` as `'true'`, numbers as `String(n)`) |
| BusinessRepository.SearchQueryOrdered | src/infrastructure/repositories/BusinessRepository.ts:129-136 | the parameters appear in the order q, category, min_rating, verified_only, sort, page, limit |
| BusinessRepository.SearchCandidatesRanked | src/infrastructure/repositories/BusinessRepository.ts:130-136 | the seven candidate names are distinct and in that order |
| BusinessRepository.MapSearchPage | src/infrastructure/repositories/BusinessRepository.ts:143-146 | every business is mapped in order and the total is copied |
| BusinessRepository.ReviewsFallback | src/infrastructure/repositories/BusinessRepository.ts:176-182 | missing reviews, total and `has_more` fall back to `[]`, 0 and false; page and limit fall back to the request, then to 1 and 20, so they are never 0 |
| BusinessRepository.ReviewsFallbackMatchesQuery | src/infrastructure/repositories/BusinessRepository.ts:166-182 | without page and limit in the response, the result's page and limit equal what the query sent |
| BusinessRepository.WorkingHoursOf | src/infrastructure/repositories/BusinessRepository.ts:151 | the working hours, or `[]` when missing |
| BusinessRepository.ServicesOf | src/infrastructure/repositories/BusinessRepository.ts:159 | the services, or `[]` when missing |
| BusinessRepository.FaqsOf | src/infrastructure/repositories/BusinessRepository.ts:194 | the FAQs, or `[]` when missing |
| BusinessRepository.BranchesOf | src/infrastructure/repositories/BusinessRepository.ts:202 | the branches, or `[]` when missing |
| BusinessRepository.MediaOf | src/infrastructure/repositories/BusinessRepository.ts:209 | the media page, or an empty page with total 0 when missing |
| BusinessRepository.AboutOf | src/infrastructure/repositories/BusinessRepository.ts:234-240 | each list falls back to `[]`; the open state and status text are absent exactly when the hours block is |
| SectionRepository.MapBusinessDto | src/infrastructure/repositories/SectionRepository.ts:44-66 | the display title is the name, the display description is the about text or `''`, the business is open, and the rating and views are copied |
| SectionRepository.DisplayDescriptionEmpty | src/infrastructure/repositories/SectionRepository.ts:64 | the display description is always present, and is `''` exactly when the about text is falsy |
| SectionRepository.MapSectionDto | src/infrastructure/repositories/SectionRepository.ts:69-89 | every section field and the call to action are copied, and each business is mapped in order |
| SectionRepository.AllSections | src/infrastructure/repositories/SectionRepository.ts:97 | the sections are mapped one for one |
| SectionRepository.AllSectionsKeepOrder | src/infrastructure/repositories/SectionRepository.ts:92-98 | the mapped sections keep their display order and business counts |
| ReviewRepository.MapReviewDto | src/infrastructure/repositories/ReviewRepository.ts:41-50 | the mapped review has no helpfulness fields |
| ReviewRepository.MapReviewDtoRoundTrip | src/infrastructure/repositories/ReviewRepository.ts:41-50 | the renaming loses nothing: it is undone by the reverse renaming, both ways |
| ReviewRepository.MapReviewDtoInjective | src/infrastructure/repositories/ReviewRepository.ts:41-50 | distinct records map to distinct reviews |
| ReviewRepository.MapSummaryDto | src/infrastructure/repositories/ReviewRepository.ts:52-56 | the summary's average, total and breakdown are copied |
| ReviewRepository.ReviewsParams | src/infrastructure/repositories/ReviewRepository.ts:59-69 | the request sends `page` and `limit`, read back as the arguments or their defaults 1 and 10 |
| ReviewRepository.MapReviewsPage | src/infrastructure/repositories/ReviewRepository.ts:71-77 | every review is mapped in order and the paging fields are copied |
| ReviewRepository.CreateReviewBody | src/infrastructure/repositories/ReviewRepository.ts:94-98 | the request body carries the rating, the comment and the image URLs unchanged |
| ForSaleRepository.ListingsQuery | src/infrastructure/repositories/ForSaleRepository.ts:9-12 | the query sends `page` and `page_size`, read back as the request or 1 and 30 |
| ForSaleRepository.ListingsOf | src/infrastructure/repositories/ForSaleRepository.ts:18-23 | listings and total fall back to `[]` and 0; page and page size fall back to the request, then to 1 and 30, so they are never 0 |
| ForSaleRepository.ListingsOfMatchesQuery | src/infrastructure/repositories/ForSaleRepository.ts:9-23 | without page and page size in the response, the result echoes what the query sent |
| ForSaleRepository.ServicesOf | src/infrastructure/repositories/ForSaleRepository.ts:31-34 | services and total fall back to `[]` and 0 |
| ApiClient.EnvOr | src/infrastructure/api/client.ts:19-22 | a configured non-empty value wins, else the built-in default |
| ApiClient.Language | src/infrastructure/api/client.ts:25 | the language is a non-empty `X-Language` header, else `'ar'` |
| ApiClient.BearerToken | src/infrastructure/api/client.ts:30-35 | a token is sent exactly in the browser with a non-empty stored token |
| ApiClient.RequestConfig.constructor | src/infrastructure/api/client.ts:17 | the config holds the given headers |
| ApiClient.RequestConfig.Intercept | src/infrastructure/api/client.ts:16-37 | the headers updated in place are the specified intercepted headers |
| ApiClient.InterceptedDeviceHeaders | src/infrastructure/api/client.ts:19-22 | the four device headers are the configured values or their defaults |
| ApiClient.InterceptedLanguage | src/infrastructure/api/client.ts:25-27 | `X-Language` and `Accept-Language` are both set, to the same value: the given non-empty `X-Language`, or `'ar'` |
| ApiClient.AcceptLanguageAloneIsOverwritten | src/infrastructure/api/client.ts:25-27 | a request that carries only `Accept-Language` is sent with `'ar'` in both language headers |
| ApiClient.InterceptedAuthorization | src/infrastructure/api/client.ts:30-35 | `Authorization` is `Bearer` plus the token when one is available, and is otherwise left as it was |
| ApiClient.InterceptedFrame | src/infrastructure/api/client.ts:16-37 | every header other than the seven written ones is left as it was |
| ApiClient.InterceptedIdempotent | src/infrastructure/api/client.ts:16-37 | intercepting twice gives the same headers as once |
| LanguageSwitcher.SwitchLocale | src/presentation/components/LanguageSwitcher/LanguageSwitcher.tsx:12-17 | the new path starts with `/` and the new locale |
| LanguageSwitcher.SwitchLocalePrefix | src/presentation/components/LanguageSwitcher/LanguageSwitcher.tsx:14-15 | on a path under the current locale, only the locale prefix is replaced |
| LanguageSwitcher.SwitchToSameLocale | src/presentation/components/LanguageSwitcher/LanguageSwitcher.tsx:14-15 | switching to the current locale keeps the path |
| LanguageSwitcher.SwitchRoundTrip | src/presentation/components/LanguageSwitcher/LanguageSwitcher.tsx:14-15 | switching to another locale and back restores the path |
| LanguageSwitcher.ActiveButtons | src/presentation/components/LanguageSwitcher/LanguageSwitcher.tsx:22-29 | the Arabic button is active iff the locale is `ar`, the English one iff it is `en`, never both |
| SearchBar.HandleSubmit | src/presentation/components/SearchBar/SearchBar.tsx:17-27 | submission is always prevented; a callback gets the raw query; without one, a blank query does nothing and any other navigates to the search URL with the untrimmed query |
| CategoryNav.VisibleCategories | src/presentation/components/Navbar/CategoryNav.tsx:18 | the strip shows the first five categories, or all when there are fewer |
| CategoryNav.HasMoreIffHidden | src/presentation/components/Navbar/CategoryNav.tsx:18-19 | `hasMore` holds exactly when some category is hidden |
| CategoryNav.RenderNav | src/presentation/components/Navbar/CategoryNav.tsx:26-64 | one item per visible category with its name, link and active state; the "More" link to the directories page appears iff categories are hidden and this is not the directories page |
| CategoryNav.ActiveBelowOwnPage | src/presentation/components/Navbar/CategoryNav.tsx:28 | a category is active on its own page and anything below it |
| CategoryNav.SlugPrefixAlsoActive | src/presentation/components/Navbar/CategoryNav.tsx:28 | a category is also active on the page of any category whose slug extends its own |
| CategoryNav.CarActiveOnCars | src/presentation/components/Navbar/CategoryNav.tsx:28 | the category `car` is active on `/en/directories/cars` |
| CategoryNav.NothingActiveOutsideDirectories | src/presentation/components/Navbar/CategoryNav.tsx:28 | no category is active on a path without `/directories/` |
| HeroBanner.NextIndex | src/presentation/components/HeroBanner/HeroBanner.tsx:34-36 | the next index stays in range |
| HeroBanner.PrevIndex | src/presentation/components/HeroBanner/HeroBanner.tsx:30-32 | the previous index stays in range |
| HeroBanner.StepsAreModular | src/presentation/components/HeroBanner/HeroBanner.tsx:30-36 | the arrows step by plus or minus one modulo the slide count |
| HeroBanner.PrevNextInverse | src/presentation/components/HeroBanner/HeroBanner.tsx:30-36 | the previous and next arrows undo each other |
| HeroBanner.SingleSlideArrowsStay | src/presentation/components/HeroBanner/HeroBanner.tsx:19-36 | with the single configured slide both arrows stay on it |
| HeroBanner.ActiveMarks | src/presentation/components/HeroBanner/HeroBanner.tsx:44 | slide `i` is marked active iff it is the current one |
| HeroBanner.ExactlyOneActive | src/presentation/components/HeroBanner/HeroBanner.tsx:153 | exactly one indicator is active |
| HeroBanner.Banner.constructor | src/presentation/components/HeroBanner/HeroBanner.tsx:17-28 | the banner starts on slide 0 with the configured slides |
| HeroBanner.Banner.PrevSlide | src/presentation/components/HeroBanner/HeroBanner.tsx:30-32 | the current slide becomes the previous index, staying in range |
| HeroBanner.Banner.NextSlide | src/presentation/components/HeroBanner/HeroBanner.tsx:34-36 | the current slide becomes the next index, staying in range |
| HeroBanner.Banner.SelectIndicator | src/presentation/components/HeroBanner/HeroBanner.tsx:154 | clicking an indicator makes its slide current |
| HeroBanner.Banner.Marks | src/presentation/components/HeroBanner/HeroBanner.tsx:150-157 | one indicator mark per slide |
| IconRenderer.RenderIcon | src/presentation/components/IconRenderer/IconRenderer.tsx:15-39 | nothing for an empty value, an image iff the value starts with `http://` or `https://`, else text; the size defaults to 24 |
| IconRenderer.RenderIconShowsValue | src/presentation/components/IconRenderer/IconRenderer.tsx:15-39 | the rendered element shows the value exactly as given |
| IconRenderer.RenderIconDefaultSize | src/presentation/components/IconRenderer/IconRenderer.tsx:15 | no size renders as size 24 |
| IconRenderer.UpperCaseSchemeIsText | src/presentation/components/IconRenderer/IconRenderer.tsx:21 | the scheme test is case-sensitive: an upper-case `HTTPS://` URL renders as text |

## Left out

- HTTP transport, the Axios instance, its base URL and timeouts, and the response interceptor are not modelled. Response bodies are inputs, and every repository is modelled from the point where a response is in hand.
- `getCategoryBySlug`, `getAllCategories`, `getBusinessBySlug`, `incrementViews` and `getReviewSummaryBySlug` only forward an HTTP call to a mapper. Their mappers are modelled; the calls are not.
- TagRepository and FilterRepository are not part of this model.
- `parseFloat`, `Number.prototype.toString` on floats and percent-encoding (`encodeURIComponent`, form encoding) are abstract function parameters. Their exact text formats are not modelled.
- The `replace` with a string pattern is modelled as "replace the first occurrence". Its special `$` patterns in the replacement are not modelled.
- Strings are sequences of code points, not UTF-16 code units.
- `null` and `undefined` are one value (`None`).
- ApiClient.RequestConfig.Intercept: header names are compared exactly. Axios header names are case-insensitive, and that is not modelled.
- CategoryPage.ParsedPage: a `NaN` from `parseInt` is `None`, which is falsy in the repository, as `NaN` is.
- Js.NumberTruthy and Js.RealTruthy: number inputs (`min_rating`, `page`, `limit`, `page_size`) are never `NaN`. A `NaN` is falsy in JavaScript, so the source sends nothing for it, but the model's numbers cannot hold one.
- CategoryPage.Request: `min_rating` is forwarded as the query's rating text rather than the text of `parseFloat(rating)`.
- CategoryPage: a repeated query key (which Next.js turns into an array) is not modelled for the category page's own search parameters.
- The order of `Object.entries` on the filters object is taken as given: filters are a list of entries.
- ForSaleRepository: `response.data` is assumed present, as the source dereferences it without a guard.
- ReviewRepository.ReviewsParams: Axios's own serialization of the `params` object is modelled as `page` and `limit` in that order, with `String(n)` values.
- Translations (`t(...)`) and the SEO translation table are parameters.
- React rendering, the DOM, styles, images, router navigation (a returned URL stands for `router.push`), the dropdown's outside-click handler and positioning, and timers are not modelled.
- Navbar, MobileMenu, CategoryGrid, FeaturedSection, RestaurantCard, the business profile pages, the middleware and `next.config.js` are not part of this model.
- The rating and sort dropdowns of the listing view use the same FilterDropdown logic. Only the verified dropdown's value derivation is modelled separately.

## Findings

| source | as written | input that shows it | evidently intended | confidence | as-written member | corrected member |
|---|---|---|---|---|---|---|
| src/app/[locale]/directories/[category]/page.tsx:111-126 | the page passes `verified`, `featured` and `min_rating` as top-level fields of the params object; `getBusinessesByCategory` (src/infrastructure/repositories/CategoryRepository.ts:93-99) only reads `params.filters`, so these filters never reach the query | `?verified=true` on a category page: the flag is set and the dropdown shows "verified", but the request has no `verified` parameter | the three filters are sent to the backend as query parameters | medium, not executed | CategoryPage.AsWrittenVerifiedIgnored | CategoryPage.RequestSendsFilters |
