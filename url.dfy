/** The `URLSearchParams` builder the thread callers use, as ordered name/value
    pairs (percent-encoding is not modelled). */
module Url {
  import opened Common

  type Entries = seq<(string, string)>

  /** The names of the pairs, in order. */
  function Names(es: Entries): (r: seq<string>) {
    if es == [] then [] else [es[0].0] + Names(es[1..])
  }

  predicate HasName(es: Entries, name: string) {
    name in Names(es)
  }

  lemma {:induction false} NamesConcat(x: Entries, y: Entries)
    ensures Names(x + y) == Names(x) + Names(y)
  {
    if x != [] {
      assert (x + y)[0] == x[0];
      assert (x + y)[1..] == x[1..] + y;
      NamesConcat(x[1..], y);
    } else {
      assert x + y == y;
    }
  }

  /** `get` on two lists of pairs put together looks in the first one first. */
  lemma {:induction false} LookupConcat(x: Entries, y: Entries, name: string)
    ensures Lookup(x + y, name) == if HasName(x, name) then Lookup(x, name) else Lookup(y, name)
  {
    if x != [] {
      assert (x + y)[0] == x[0];
      assert (x + y)[1..] == x[1..] + y;
      LookupConcat(x[1..], y, name);
    } else {
      assert x + y == y;
    }
  }

  /** `get(name)`: the first value under `name`. */
  function Lookup(es: Entries, name: string): (r: Option<string>) {
    if es == [] then None
    else if es[0].0 == name then Some(es[0].1)
    else Lookup(es[1..], name)
  }

  function RemoveName(es: Entries, name: string): (r: Entries) {
    if es == [] then []
    else if es[0].0 == name then RemoveName(es[1..], name)
    else [es[0]] + RemoveName(es[1..], name)
  }

  /** `set(name, value)`: the first pair under `name` takes the value and the
      others go; without such a pair, the pair is appended. */
  function SetEntry(es: Entries, name: string, value: string): (r: Entries) {
    if es == [] then [(name, value)]
    else if es[0].0 == name then [(name, value)] + RemoveName(es[1..], name)
    else [es[0]] + SetEntry(es[1..], name, value)
  }

  /** `toString()`: `name=value` pairs joined by `&`. */
  function Render(es: Entries): (r: string) {
    if es == [] then ""
    else if |es| == 1 then es[0].0 + "=" + es[0].1
    else es[0].0 + "=" + es[0].1 + "&" + Render(es[1..])
  }

  /** Setting a name not yet present appends one pair at the end. */
  lemma {:induction false} SetNewNameAppends(es: Entries, name: string, value: string)
    requires !HasName(es, name)
    ensures SetEntry(es, name, value) == es + [(name, value)]
  {
    if es != [] {
      SetNewNameAppends(es[1..], name, value);
      assert [es[0]] + (es[1..] + [(name, value)]) == es + [(name, value)];
    }
  }

  lemma {:induction false} RemoveNameKeepsOthers(es: Entries, name: string, other: string)
    requires other != name
    ensures Lookup(RemoveName(es, name), other) == Lookup(es, other)
    ensures Lookup(RemoveName(es, name), name) == None
  {
    if es != [] {
      RemoveNameKeepsOthers(es[1..], name, other);
    }
  }

  /** After `set(name, value)`, `get(name)` is `value` and every other name
      reads as before. */
  lemma {:induction false} SetThenGet(es: Entries, name: string, value: string, other: string)
    requires other != name
    ensures Lookup(SetEntry(es, name, value), name) == Some(value)
    ensures Lookup(SetEntry(es, name, value), other) == Lookup(es, other)
  {
    if es != [] {
      if es[0].0 == name {
        RemoveNameKeepsOthers(es[1..], name, other);
      } else {
        SetThenGet(es[1..], name, value, other);
      }
    }
  }

  /** The rendered query is empty exactly when there are no pairs. */
  lemma RenderEmptyIff(es: Entries)
    ensures Render(es) == "" <==> es == []
  {
    if es != [] {
      assert |Render(es)| >= |es[0].0 + "="|;
    }
  }

  /** `url + (qs ? "?" + qs : "")` for the builder's current pairs. */
  function WithQuery(path: string, es: Entries): (r: string) {
    path + (if Render(es) != "" then "?" + Render(es) else "")
  }

  /** A URL gains a `?` exactly when some pair was set. */
  lemma WithQueryBareIff(path: string, es: Entries)
    ensures WithQuery(path, es) == path <==> es == []
  {
    RenderEmptyIff(es);
    if es != [] {
      assert |WithQuery(path, es)| > |path|;
    }
  }

  class SearchParams {
    var entries: Entries

    constructor ()
      ensures entries == []
    {
      entries := [];
    }

    method Set(name: string, value: string)
      modifies this
      ensures entries == SetEntry(old(entries), name, value)
    {
      entries := SetEntry(entries, name, value);
    }

    function ToString(): (r: string)
      reads this
    {
      Render(entries)
    }
  }
}
