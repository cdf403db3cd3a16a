/**
 * The category strip of the navigation bar
 * (src/presentation/components/Navbar/CategoryNav.tsx): the first five
 * categories with their links and active state, and the "More" link.
 */
module CategoryNav {
  import opened Js
  import opened JsString
  import opened Entities

  /** How many categories the strip shows. */
  const MaxVisible := 5

  /** One link of the strip; `icon` is present only when the category has a non-empty icon. */
  datatype NavItem = NavItem(name: string, icon: Option<string>, href: string, active: bool)

  /** The rendered strip: the category links and, when shown, the "More" link. */
  datatype Nav = Nav(items: seq<NavItem>, more: Option<NavItem>)

  /** `categories.slice(0, 5)`: the first five categories, in order. */
  function VisibleCategories(categories: seq<Category>): (shown: seq<Category>)
    ensures |shown| == if |categories| < MaxVisible then |categories| else MaxVisible
    ensures shown <= categories
  {
    if |categories| < MaxVisible then categories else categories[..MaxVisible]
  }

  /** `categories.length > 5`. */
  predicate HasMore(categories: seq<Category>) {
    |categories| > MaxVisible
  }

  /** `hasMore` holds exactly when some category is left out of the strip. */
  lemma HasMoreIffHidden(categories: seq<Category>)
    ensures HasMore(categories) <==> |VisibleCategories(categories)| < |categories|
    ensures !HasMore(categories) ==> VisibleCategories(categories) == categories
  {
  }

  function CategoryHref(locale: string, slug: string): string {
    "/" + locale + "/directories/" + slug
  }

  function DirectoriesPath(locale: string): string {
    "/" + locale + "/directories"
  }

  /** `pathname?.includes('/directories/' + slug)`; no pathname means not active. */
  predicate IsActive(pathname: Option<string>, slug: string) {
    pathname.Some? && Includes(pathname.value, "/directories/" + slug)
  }

  /** The "More" link is shown when categories are hidden, except on the directories page itself. */
  predicate ShowMore(categories: seq<Category>, locale: string, pathname: Option<string>) {
    HasMore(categories) && pathname != Some(DirectoriesPath(locale))
  }

  function MoreText(locale: string): string {
    if locale == "ar" then "المزيد" else "More"
  }

  function CategoryItem(locale: string, pathname: Option<string>, c: Category): NavItem {
    NavItem(c.name, if StringTruthy(c.icon) then c.icon else None, CategoryHref(locale, c.slug), IsActive(pathname, c.slug))
  }

  /** The strip the component renders. */
  function RenderNav(categories: seq<Category>, locale: string, pathname: Option<string>): (nav: Nav)
    ensures |nav.items| == |VisibleCategories(categories)|
    ensures forall i :: 0 <= i < |nav.items| ==>
      && nav.items[i].name == categories[i].name
      && nav.items[i].href == CategoryHref(locale, categories[i].slug)
      && (nav.items[i].active <==> IsActive(pathname, categories[i].slug))
    ensures nav.more.Some? <==> ShowMore(categories, locale, pathname)
    ensures nav.more.Some? ==> nav.more.value.href == DirectoriesPath(locale) && !nav.more.value.active
  {
    var shown := VisibleCategories(categories);
    var items := MapSeq((c: Category) => CategoryItem(locale, pathname, c), shown);
    var more := if ShowMore(categories, locale, pathname)
      then Some(NavItem(MoreText(locale), None, DirectoriesPath(locale), false))
      else None;
    Nav(items, more)
  }

  /** A category's link is active on its own page and on every page below it. */
  lemma ActiveBelowOwnPage(locale: string, slug: string, rest: string)
    ensures IsActive(Some(CategoryHref(locale, slug) + rest), slug)
  {
    var path := CategoryHref(locale, slug) + rest;
    var pat := "/directories/" + slug;
    assert path[|locale| + 1..|locale| + 1 + |pat|] == pat;
    IncludesAt(path, pat, |locale| + 1);
  }

  /**
   * The match is on a substring, not on a path segment: a slug that is a
   * prefix of another slug is active on the other's page too.
   */
  lemma SlugPrefixAlsoActive(locale: string, slug: string, suffix: string)
    ensures IsActive(Some(CategoryHref(locale, slug + suffix)), slug)
  {
    assert CategoryHref(locale, slug + suffix) == CategoryHref(locale, slug) + suffix;
    ActiveBelowOwnPage(locale, slug, suffix);
  }

  /** For instance the `car` link is active on the `cars` page. */
  lemma CarActiveOnCars()
    ensures IsActive(Some("/en/directories/cars"), "car")
  {
    SlugPrefixAlsoActive("en", "car", "s");
    assert CategoryHref("en", "car" + "s") == "/en/directories/cars";
  }

  /** No link is active when the path never mentions `/directories/`. */
  lemma NothingActiveOutsideDirectories(pathname: string, slug: string)
    requires forall i :: !OccursAt(pathname, "/directories/", i)
    ensures !IsActive(Some(pathname), slug)
  {
    var pat := "/directories/" + slug;
    if Includes(pathname, pat) {
      var i := IndexOf(pathname, pat).value;
      assert pathname[i..i + |pat|][..13] == "/directories/";
      assert OccursAt(pathname, "/directories/", i);
    }
  }
}
