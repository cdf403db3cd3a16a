/**
 * The language switcher
 * (src/presentation/components/LanguageSwitcher/LanguageSwitcher.tsx):
 * the path pushed when switching locale, and which button is highlighted.
 */
module LanguageSwitcher {
  import opened JsString

  /**
   * `switchLocale(newLocale)`: the first occurrence of `/` + the current
   * locale is removed from the path, and `/` + the new locale is put in front.
   */
  function SwitchLocale(pathname: string, locale: string, newLocale: string): (path: string)
    ensures StartsWith(path, "/" + newLocale)
  {
    "/" + newLocale + ReplaceFirst(pathname, "/" + locale, "")
  }

  /** On a path under the current locale, the switch swaps that prefix. */
  lemma SwitchLocalePrefix(pathname: string, locale: string, newLocale: string)
    requires StartsWith(pathname, "/" + locale)
    ensures SwitchLocale(pathname, locale, newLocale) == "/" + newLocale + pathname[|locale| + 1..]
  {
    ReplaceFirstPrefix(pathname, "/" + locale, "");
  }

  /** Switching to the current locale leaves such a path unchanged. */
  lemma SwitchToSameLocale(pathname: string, locale: string)
    requires StartsWith(pathname, "/" + locale)
    ensures SwitchLocale(pathname, locale, locale) == pathname
  {
    SwitchLocalePrefix(pathname, locale, locale);
    assert pathname == ("/" + locale) + pathname[|locale| + 1..];
  }

  /** Switching there and back returns the original path (for example ar, en, ar). */
  lemma SwitchRoundTrip(pathname: string, locale: string, other: string)
    requires StartsWith(pathname, "/" + locale)
    ensures SwitchLocale(SwitchLocale(pathname, locale, other), other, locale) == pathname
  {
    var rest := pathname[|locale| + 1..];
    var there := SwitchLocale(pathname, locale, other);
    SwitchLocalePrefix(pathname, locale, other);
    assert there == ("/" + other) + rest;
    assert StartsWith(there, "/" + other);
    SwitchLocalePrefix(there, other, locale);
    assert there[|other| + 1..] == rest;
    assert pathname == ("/" + locale) + rest;
  }

  /** The highlighted button: Arabic exactly for `ar`, English exactly for `en`. */
  datatype Buttons = Buttons(arabicActive: bool, englishActive: bool)

  function ActiveButtons(locale: string): (b: Buttons)
    ensures b.arabicActive <==> locale == "ar"
    ensures b.englishActive <==> locale == "en"
    ensures !(b.arabicActive && b.englishActive)
  {
    Buttons(locale == "ar", locale == "en")
  }
}
