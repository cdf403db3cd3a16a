/**
 * `URLSearchParams` as the WHATWG URL Standard (section 6.2) defines it: an
 * ordered list of name-value pairs. `append` adds a pair at the end, `delete`
 * removes every pair with the name, and `set` overwrites the first pair with
 * the name and removes the others (or appends when there is none).
 * Serialization (section 5.2) is kept abstract in its percent-encoding.
 */
module UrlSearchParams {
  import opened Js
  import opened JsString

  type Pair = (string, string)

  /** `getAll(name)`: the values of the pairs named `name`, in list order. */
  function AllValues(list: seq<Pair>, name: string): (r: seq<string>)
    ensures |r| <= |list|
  {
    if list == [] then []
    else (if list[0].0 == name then [list[0].1] else []) + AllValues(list[1..], name)
  }

  /** `has(name)`. */
  predicate HasName(list: seq<Pair>, name: string) {
    list != [] && (list[0].0 == name || HasName(list[1..], name))
  }

  /** `get(name)`: the value of the first pair named `name`. */
  function FirstValue(list: seq<Pair>, name: string): (r: Option<string>)
    ensures r.None? <==> AllValues(list, name) == []
    ensures r.Some? ==> r.value == AllValues(list, name)[0]
  {
    var all := AllValues(list, name);
    if all == [] then None else Some(all[0])
  }

  /** `has(name)` holds exactly when `getAll(name)` is non-empty. */
  lemma {:induction false} HasNameIffValues(list: seq<Pair>, name: string)
    ensures HasName(list, name) <==> AllValues(list, name) != []
  {
    if list != [] {
      HasNameIffValues(list[1..], name);
    }
  }

  /** The list with every pair whose name is in `names` removed. */
  function Drop(list: seq<Pair>, names: set<string>): (r: seq<Pair>)
    ensures |r| <= |list|
    ensures forall p :: p in r <==> p in list && p.0 !in names
  {
    if list == [] then []
    else (if list[0].0 in names then [] else [list[0]]) + Drop(list[1..], names)
  }

  /** The pair list after `set(name, value)` when `name` is present. */
  function SetFirst(list: seq<Pair>, name: string, value: string): seq<Pair>
    requires HasName(list, name)
  {
    if list[0].0 == name then [(name, value)] + Drop(list[1..], {name})
    else [list[0]] + SetFirst(list[1..], name, value)
  }

  /** The pair list after `set(name, value)`. */
  function WithValue(list: seq<Pair>, name: string, value: string): seq<Pair> {
    if HasName(list, name) then SetFirst(list, name, value) else list + [(name, value)]
  }

  /** Appending one pair adds its value at the end of `getAll` for its name. */
  lemma {:induction false} AllValuesAppend(list: seq<Pair>, p: Pair, name: string)
    ensures AllValues(list + [p], name)
         == AllValues(list, name) + (if p.0 == name then [p.1] else [])
  {
    if list == [] {
      assert [p][1..] == [];
    } else {
      assert (list + [p])[1..] == list[1..] + [p];
      AllValuesAppend(list[1..], p, name);
    }
  }

  /** `getAll(name)` holds exactly the values paired with `name`. */
  lemma {:induction false} AllValuesMember(list: seq<Pair>, name: string, value: string)
    ensures value in AllValues(list, name) <==> (name, value) in list
  {
    if list != [] {
      AllValuesMember(list[1..], name, value);
      assert list == [list[0]] + list[1..];
    }
  }

  /** Removing names leaves the values of every other name as they were. */
  lemma {:induction false} AllValuesDrop(list: seq<Pair>, names: set<string>, name: string)
    ensures AllValues(Drop(list, names), name)
         == if name in names then [] else AllValues(list, name)
  {
    if list != [] {
      AllValuesDrop(list[1..], names, name);
      var head := if list[0].0 in names then [] else [list[0]];
      assert Drop(list, names) == head + Drop(list[1..], names);
      AllValuesConcat(head, Drop(list[1..], names), name);
    }
  }

  lemma {:induction false} AllValuesConcat(a: seq<Pair>, b: seq<Pair>, name: string)
    ensures AllValues(a + b, name) == AllValues(a, name) + AllValues(b, name)
  {
    if a != [] {
      assert (a + b)[1..] == a[1..] + b;
      AllValuesConcat(a[1..], b, name);
    } else {
      assert a + b == b;
    }
  }

  /** Two removals are one removal of both name sets. */
  lemma {:induction false} DropDrop(list: seq<Pair>, a: set<string>, b: set<string>)
    ensures Drop(Drop(list, a), b) == Drop(list, a + b)
  {
    if list != [] {
      DropDrop(list[1..], a, b);
      var head := if list[0].0 in a then [] else [list[0]];
      DropConcat(head, Drop(list[1..], a), b);
    }
  }

  lemma {:induction false} DropConcat(x: seq<Pair>, y: seq<Pair>, names: set<string>)
    ensures Drop(x + y, names) == Drop(x, names) + Drop(y, names)
  {
    if x != [] {
      assert (x + y)[1..] == x[1..] + y;
      DropConcat(x[1..], y, names);
    } else {
      assert x + y == y;
    }
  }

  /** After `set(name, value)`, `getAll(name)` is exactly `[value]`. */
  lemma {:induction false} WithValueValues(list: seq<Pair>, name: string, value: string)
    ensures AllValues(WithValue(list, name, value), name) == [value]
  {
    if HasName(list, name) {
      SetFirstValues(list, name, value);
    } else {
      HasNameIffValues(list, name);
      AllValuesAppend(list, (name, value), name);
    }
  }

  lemma {:induction false} SetFirstValues(list: seq<Pair>, name: string, value: string)
    requires HasName(list, name)
    ensures AllValues(SetFirst(list, name, value), name) == [value]
  {
    if list[0].0 == name {
      AllValuesDrop(list[1..], {name}, name);
      AllValuesConcat([(name, value)], Drop(list[1..], {name}), name);
    } else {
      SetFirstValues(list[1..], name, value);
      AllValuesConcat([list[0]], SetFirst(list[1..], name, value), name);
    }
  }

  /**
   * `set(name, value)` touches only pairs named `name`: with those removed,
   * the list before and after is the same, in order and value.
   */
  lemma {:induction false} WithValueFrame(list: seq<Pair>, name: string, value: string, names: set<string>)
    requires name in names
    ensures Drop(WithValue(list, name, value), names) == Drop(list, names)
  {
    if HasName(list, name) {
      SetFirstFrame(list, name, value, names);
    } else {
      DropConcat(list, [(name, value)], names);
    }
  }

  lemma {:induction false} SetFirstFrame(list: seq<Pair>, name: string, value: string, names: set<string>)
    requires name in names && HasName(list, name)
    ensures Drop(SetFirst(list, name, value), names) == Drop(list, names)
  {
    if list[0].0 == name {
      DropConcat([(name, value)], Drop(list[1..], {name}), names);
      DropDrop(list[1..], {name}, names);
      assert {name} + names == names;
    } else {
      SetFirstFrame(list[1..], name, value, names);
      DropConcat([list[0]], SetFirst(list[1..], name, value), names);
    }
  }

  /** Other names keep their values across `set(name, value)`. */
  lemma WithValueOthers(list: seq<Pair>, name: string, value: string, other: string)
    requires other != name
    ensures AllValues(WithValue(list, name, value), other) == AllValues(list, other)
  {
    WithValueFrame(list, name, value, {name});
    AllValuesDrop(WithValue(list, name, value), {name}, other);
    AllValuesDrop(list, {name}, other);
  }

  /**
   * The application/x-www-form-urlencoded serializer: `name=value` for each
   * pair, joined by `&`. `encode` stands for the percent-encoding of a string.
   */
  function Serialize(list: seq<Pair>, encode: string -> string): string {
    Join(MapSeq((p: Pair) => encode(p.0) + "=" + encode(p.1), list), "&")
  }

  /** The serialization is empty exactly when there are no pairs. */
  lemma SerializeEmpty(list: seq<Pair>, encode: string -> string)
    ensures Serialize(list, encode) == "" <==> list == []
  {
    if list != [] {
      var parts := MapSeq((p: Pair) => encode(p.0) + "=" + encode(p.1), list);
      assert |parts[0]| > 0;
      JoinNonEmpty(parts, "&");
    }
  }

  lemma JoinNonEmpty(parts: seq<string>, sep: string)
    requires parts != [] && parts[0] != ""
    ensures Join(parts, sep) != ""
  {
  }

  /** The object behind `new URLSearchParams(...)`: its list is updated in place. */
  class SearchParams {
    var list: seq<Pair>

    /** `new URLSearchParams(init)` from a list of pairs. */
    constructor (init: seq<Pair>)
      ensures list == init
    {
      list := init;
    }

    method Append(name: string, value: string)
      modifies this
      ensures list == old(list) + [(name, value)]
    {
      list := list + [(name, value)];
    }

    method Delete(name: string)
      modifies this
      ensures list == Drop(old(list), {name})
    {
      list := Drop(list, {name});
    }

    method Set(name: string, value: string)
      modifies this
      ensures list == WithValue(old(list), name, value)
    {
      list := WithValue(list, name, value);
    }

    function ToString(encode: string -> string): string
      reads this
    {
      Serialize(list, encode)
    }
  }
}
