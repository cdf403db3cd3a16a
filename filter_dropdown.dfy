/**
 * The filter dropdown of a category listing
 * (src/presentation/components/FilterDropdown/FilterDropdown.tsx): choosing an
 * option rewrites the current query parameters and navigates, and the
 * special `filter` parameter fans out into the `verified`/`featured` flags.
 * The open/closed state is a field of the `Dropdown` object.
 */
module FilterDropdown {
  import opened Js
  import opened UrlSearchParams

  datatype FilterOption = FilterOption(caption: string, value: string)

  /** The values that mean "no filter". */
  predicate IsAll(value: string) {
    value == "" || value == "all"
  }

  /** The query parameters `handleSelect` navigates to. */
  function SelectedParams(current: seq<Pair>, paramName: string, value: string): seq<Pair> {
    if IsAll(value) then
      var removed := Drop(current, {paramName});
      if paramName == "filter" then Drop(Drop(removed, {"verified"}), {"featured"}) else removed
    else if paramName == "filter" then
      var removed := Drop(current, {"filter"});
      if value == "verified" then Drop(WithValue(removed, "verified", "true"), {"featured"})
      else if value == "featured" then Drop(WithValue(removed, "featured", "true"), {"verified"})
      else if value == "both" then WithValue(WithValue(removed, "verified", "true"), "featured", "true")
      else removed
    else
      WithValue(current, paramName, value)
  }

  /**
   * The parameter rewrite of `handleSelect`, done as the component does it:
   * copy the current parameters, then `delete` and `set` in place.
   */
  method SelectParams(current: seq<Pair>, paramName: string, value: string) returns (next: seq<Pair>)
    ensures next == SelectedParams(current, paramName, value)
  {
    var params := new SearchParams(current);
    if value == "" || value == "all" {
      params.Delete(paramName);
      if paramName == "filter" {
        params.Delete("verified");
        params.Delete("featured");
      }
    } else {
      if paramName == "filter" {
        params.Delete("filter");
        if value == "verified" {
          params.Set("verified", "true");
          params.Delete("featured");
        } else if value == "featured" {
          params.Set("featured", "true");
          params.Delete("verified");
        } else if value == "both" {
          params.Set("verified", "true");
          params.Set("featured", "true");
        }
      } else {
        params.Set(paramName, value);
      }
    }
    next := params.list;
  }

  /** The URL `handleSelect` pushes: the path, plus `?` and the query when there is one. */
  function TargetUrl(pathname: string, params: seq<Pair>, encode: string -> string): string {
    var query := Serialize(params, encode);
    if query != "" then pathname + "?" + query else pathname
  }

  /** The target is the bare path exactly when no parameter is left. */
  lemma TargetUrlBare(pathname: string, params: seq<Pair>, encode: string -> string)
    ensures TargetUrl(pathname, params, encode) == pathname <==> params == []
    ensures params != [] ==> TargetUrl(pathname, params, encode) == pathname + "?" + Serialize(params, encode)
  {
    SerializeEmpty(params, encode);
    if params != [] {
      assert |TargetUrl(pathname, params, encode)| > |pathname|;
    }
  }

  /** The parameter names the branch taken for `(paramName, value)` may touch. */
  function TouchedNames(paramName: string, value: string): set<string> {
    if IsAll(value) then
      (if paramName == "filter" then {"filter", "verified", "featured"} else {paramName})
    else if paramName == "filter" then
      (if value == "verified" || value == "featured" || value == "both"
       then {"filter", "verified", "featured"} else {"filter"})
    else
      {paramName}
  }

  lemma DropAbsorb(list: seq<Pair>, a: set<string>, names: set<string>)
    requires a <= names
    ensures Drop(Drop(list, a), names) == Drop(list, names)
  {
    DropDrop(list, a, names);
    assert a + names == names;
  }

  /**
   * Every parameter outside the names the branch touches is left as it was,
   * in order and value.
   */
  lemma SelectFrame(current: seq<Pair>, paramName: string, value: string)
    ensures var names := TouchedNames(paramName, value);
      Drop(SelectedParams(current, paramName, value), names) == Drop(current, names)
  {
    var names := TouchedNames(paramName, value);
    if IsAll(value) {
      var removed := Drop(current, {paramName});
      if paramName == "filter" {
        DropAbsorb(Drop(removed, {"verified"}), {"featured"}, names);
        DropAbsorb(removed, {"verified"}, names);
      }
      DropAbsorb(current, {paramName}, names);
    } else if paramName == "filter" {
      var removed := Drop(current, {"filter"});
      DropAbsorb(current, {"filter"}, names);
      if value == "verified" {
        DropAbsorb(WithValue(removed, "verified", "true"), {"featured"}, names);
        WithValueFrame(removed, "verified", "true", names);
      } else if value == "featured" {
        DropAbsorb(WithValue(removed, "featured", "true"), {"verified"}, names);
        WithValueFrame(removed, "featured", "true", names);
      } else if value == "both" {
        WithValueFrame(WithValue(removed, "verified", "true"), "featured", "true", names);
        WithValueFrame(removed, "verified", "true", names);
      }
    } else {
      WithValueFrame(current, paramName, value, names);
    }
  }

  /**
   * Choosing `''` or `'all'` removes the parameter, and for `filter` also
   * both flags.
   */
  lemma SelectAllRemoves(current: seq<Pair>, paramName: string, value: string)
    requires IsAll(value)
    ensures AllValues(SelectedParams(current, paramName, value), paramName) == []
    ensures paramName == "filter" ==>
      && AllValues(SelectedParams(current, paramName, value), "verified") == []
      && AllValues(SelectedParams(current, paramName, value), "featured") == []
  {
    var removed := Drop(current, {paramName});
    AllValuesDrop(current, {paramName}, paramName);
    if paramName == "filter" {
      var r := SelectedParams(current, paramName, value);
      DropDrop(removed, {"verified"}, {"featured"});
      DropDrop(current, {paramName}, {"verified"} + {"featured"});
      assert r == Drop(current, {paramName} + ({"verified"} + {"featured"}));
      AllValuesDrop(current, {paramName} + ({"verified"} + {"featured"}), "filter");
      AllValuesDrop(current, {paramName} + ({"verified"} + {"featured"}), "verified");
      AllValuesDrop(current, {paramName} + ({"verified"} + {"featured"}), "featured");
    }
  }

  /** A `filter` selection never leaves a `filter` parameter behind. */
  lemma SelectFilterLeavesNoFilter(current: seq<Pair>, value: string)
    ensures AllValues(SelectedParams(current, "filter", value), "filter") == []
  {
    if IsAll(value) {
      SelectAllRemoves(current, "filter", value);
    } else {
      var removed := Drop(current, {"filter"});
      AllValuesDrop(current, {"filter"}, "filter");
      if value == "verified" {
        WithValueOthers(removed, "verified", "true", "filter");
        AllValuesDrop(WithValue(removed, "verified", "true"), {"featured"}, "filter");
      } else if value == "featured" {
        WithValueOthers(removed, "featured", "true", "filter");
        AllValuesDrop(WithValue(removed, "featured", "true"), {"verified"}, "filter");
      } else if value == "both" {
        WithValueOthers(removed, "verified", "true", "filter");
        WithValueOthers(WithValue(removed, "verified", "true"), "featured", "true", "filter");
      }
    }
  }

  /**
   * The flags a `filter` selection leaves: `verified` sets `verified=true` and
   * removes `featured`, `featured` the other way round, and `both` sets both.
   */
  lemma SelectFilterFlags(current: seq<Pair>, value: string)
    ensures var r := SelectedParams(current, "filter", value);
      && (value == "verified" ==> AllValues(r, "verified") == ["true"] && AllValues(r, "featured") == [])
      && (value == "featured" ==> AllValues(r, "featured") == ["true"] && AllValues(r, "verified") == [])
      && (value == "both" ==> AllValues(r, "verified") == ["true"] && AllValues(r, "featured") == ["true"])
  {
    var removed := Drop(current, {"filter"});
    if value == "verified" {
      var s := WithValue(removed, "verified", "true");
      WithValueValues(removed, "verified", "true");
      AllValuesDrop(s, {"featured"}, "verified");
      AllValuesDrop(s, {"featured"}, "featured");
    } else if value == "featured" {
      var s := WithValue(removed, "featured", "true");
      WithValueValues(removed, "featured", "true");
      AllValuesDrop(s, {"verified"}, "featured");
      AllValuesDrop(s, {"verified"}, "verified");
    } else if value == "both" {
      var s := WithValue(removed, "verified", "true");
      WithValueValues(removed, "verified", "true");
      WithValueOthers(s, "featured", "true", "verified");
      WithValueValues(s, "featured", "true");
    }
  }

  /** Any other parameter ends with exactly the one chosen value. */
  lemma SelectOtherSets(current: seq<Pair>, paramName: string, value: string)
    requires paramName != "filter" && !IsAll(value)
    ensures AllValues(SelectedParams(current, paramName, value), paramName) == [value]
  {
    WithValueValues(current, paramName, value);
  }

  /** The index of the first option whose value is `currentValue`, if any. */
  function FindOption(options: seq<FilterOption>, currentValue: Option<string>): (r: Option<nat>)
    ensures r.Some? ==> r.value < |options| && Some(options[r.value].value) == currentValue
    ensures r.Some? ==> forall j :: 0 <= j < r.value ==> Some(options[j].value) != currentValue
    ensures r.None? ==> forall j :: 0 <= j < |options| ==> Some(options[j].value) != currentValue
  {
    if options == [] then None
    else if Some(options[0].value) == currentValue then Some(0)
    else match FindOption(options[1..], currentValue)
      case None => None
      case Some(i) => Some(i + 1)
  }

  /**
   * `currentOption?.label || label`: the label of the first option whose value
   * is `currentValue`, or the dropdown's own caption when no option matches or
   * the matching option's label is empty.
   */
  function DisplayLabel(options: seq<FilterOption>, currentValue: Option<string>, caption: string): (shown: string)
    ensures shown == caption
      || exists i :: 0 <= i < |options| && options[i].caption == shown && Some(options[i].value) == currentValue
    ensures currentValue.None? ==> shown == caption
    ensures forall i ::
      (0 <= i < |options| && Some(options[i].value) == currentValue && options[i].caption != ""
       && (forall j :: 0 <= j < i ==> Some(options[j].value) != currentValue))
      ==> shown == options[i].caption
    ensures forall i ::
      (0 <= i < |options| && Some(options[i].value) == currentValue && options[i].caption == ""
       && (forall j :: 0 <= j < i ==> Some(options[j].value) != currentValue))
      ==> shown == caption
    ensures (forall i :: 0 <= i < |options| ==> Some(options[i].value) != currentValue) ==> shown == caption
  {
    match FindOption(options, currentValue)
    case Some(i) => if options[i].caption != "" then options[i].caption else caption
    case None => caption
  }

  /** One mounted dropdown: its props and its `isOpen` state. */
  class Dropdown {
    const caption: string
    const options: seq<FilterOption>
    const paramName: string
    const currentValue: Option<string>
    var isOpen: bool

    constructor (caption: string, options: seq<FilterOption>, paramName: string, currentValue: Option<string>)
      ensures this.caption == caption && this.options == options
      ensures this.paramName == paramName && this.currentValue == currentValue
      ensures !isOpen
    {
      this.caption := caption;
      this.options := options;
      this.paramName := paramName;
      this.currentValue := currentValue;
      isOpen := false;
    }

    /** The trigger button flips the open state. */
    method Toggle()
      modifies this
      ensures isOpen == !old(isOpen)
    {
      isOpen := !isOpen;
    }

    /**
     * `handleSelect(value)`: the URL to navigate to, computed from the current
     * query parameters; the dropdown is closed afterwards.
     */
    method HandleSelect(searchParams: seq<Pair>, pathname: string, value: string, encode: string -> string)
      returns (newUrl: string)
      modifies this
      ensures newUrl == TargetUrl(pathname, SelectedParams(searchParams, paramName, value), encode)
      ensures !isOpen
    {
      var params := SelectParams(searchParams, paramName, value);
      var query := Serialize(params, encode);
      newUrl := if query != "" then pathname + "?" + query else pathname;
      isOpen := false;
    }

    /** The text on the trigger button. */
    function ShownLabel(): string {
      DisplayLabel(options, currentValue, caption)
    }
  }
}
