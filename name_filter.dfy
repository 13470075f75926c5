/**
 * The case-insensitive name filter shared by the sidebar deployment list,
 * the deployment list, the pod list and the searchable dropdown: an empty
 * query keeps everything, otherwise the items whose lower-cased name
 * contains the lower-cased query, in their original order.
 */
module NameFilter {
  import opened Text

  /** Items whose name contains `query` ignoring case, in their original order. */
  function KeepNamed<T>(items: seq<T>, name: T -> string, query: string): (r: seq<T>)
    ensures |r| <= |items|
    ensures forall x :: x in r ==> x in items && ContainsIgnoringCase(name(x), query)
    decreases |items|
  {
    if |items| == 0 then []
    else
      var prefix := KeepNamed(items[..|items| - 1], name, query);
      var last := items[|items| - 1];
      if ContainsIgnoringCase(name(last), query) then prefix + [last] else prefix
  }

  /** The filter as the components write it: an empty query short-circuits to the whole list. */
  function FilterByName<T>(items: seq<T>, name: T -> string, query: string): seq<T>
  {
    if query == "" then items else KeepNamed(items, name, query)
  }

  lemma {:induction false} KeepNamedAppend<T>(a: seq<T>, b: seq<T>, name: T -> string, query: string)
    ensures KeepNamed(a + b, name, query) == KeepNamed(a, name, query) + KeepNamed(b, name, query)
    decreases |b|
  {
    if |b| > 0 {
      var b' := b[..|b| - 1];
      KeepNamedAppend(a, b', name, query);
      assert (a + b)[..|a + b| - 1] == a + b';
      assert (a + b)[|a + b| - 1] == b[|b| - 1];
    } else {
      assert a + b == a;
    }
  }

  lemma KeepNamedSingleton<T>(x: T, name: T -> string, query: string)
    ensures KeepNamed([x], name, query) == if ContainsIgnoringCase(name(x), query) then [x] else []
  {
    assert [x][..0] == [];
  }

  /** Every item whose name matches is kept. */
  lemma KeepNamedComplete<T>(items: seq<T>, name: T -> string, query: string, i: int)
    requires 0 <= i < |items| && ContainsIgnoringCase(name(items[i]), query)
    ensures items[i] in KeepNamed(items, name, query)
  {
    assert items == items[..i] + [items[i]] + items[i + 1..];
    KeepNamedAppend(items[..i] + [items[i]], items[i + 1..], name, query);
    KeepNamedAppend(items[..i], [items[i]], name, query);
    KeepNamedSingleton(items[i], name, query);
  }

  lemma {:induction false} KeepNamedIdempotent<T>(items: seq<T>, name: T -> string, query: string)
    ensures KeepNamed(KeepNamed(items, name, query), name, query) == KeepNamed(items, name, query)
    decreases |items|
  {
    if |items| > 0 {
      var prefix := items[..|items| - 1];
      var last := items[|items| - 1];
      KeepNamedIdempotent(prefix, name, query);
      if ContainsIgnoringCase(name(last), query) {
        KeepNamedAppend(KeepNamed(prefix, name, query), [last], name, query);
        KeepNamedSingleton(last, name, query);
      }
    }
  }

  lemma EmptyQueryMatches(s: string)
    ensures ContainsIgnoringCase(s, "")
  {
    ContainsEmpty(Lower(s));
  }

  lemma {:induction false} KeepNamedEverything<T>(items: seq<T>, name: T -> string)
    ensures KeepNamed(items, name, "") == items
    decreases |items|
  {
    if |items| > 0 {
      KeepNamedEverything(items[..|items| - 1], name);
      EmptyQueryMatches(name(items[|items| - 1]));
    }
  }

  /**
   * The filter keeps exactly the matching items, in order, and filtering
   * twice equals filtering once; the empty-query shortcut agrees with the
   * general rule.
   */
  lemma FilterByNameLaws<T>(items: seq<T>, name: T -> string, query: string)
    ensures FilterByName(items, name, query) == KeepNamed(items, name, query)
    ensures query == "" ==> FilterByName(items, name, query) == items
    ensures forall i :: 0 <= i < |items| && ContainsIgnoringCase(name(items[i]), query) ==>
      items[i] in FilterByName(items, name, query)
    ensures forall x :: x in FilterByName(items, name, query) ==> x in items && ContainsIgnoringCase(name(x), query)
    ensures FilterByName(FilterByName(items, name, query), name, query) == FilterByName(items, name, query)
  {
    if query == "" {
      KeepNamedEverything(items, name);
    } else {
      KeepNamedIdempotent(items, name, query);
    }
    forall i | 0 <= i < |items| && ContainsIgnoringCase(name(items[i]), query)
      ensures items[i] in FilterByName(items, name, query)
    {
      KeepNamedComplete(items, name, query, i);
    }
  }
}
