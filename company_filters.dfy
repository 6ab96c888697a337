/**
 * components/ui/company-filters.tsx: the browse page's search box and
 * industry/stage selects, which rewrite the URL's query parameters.
 *
 * A query string is modelled as `URLSearchParams` keeps it: an ordered
 * list of name/value pairs in which a name may repeat. `delete` drops every
 * pair with the name; `set` overwrites the first such pair, drops the
 * others, or appends a pair when there is none; `get` reads the first.
 * Percent-encoding and `toString` are not modelled.
 */
module CompanyFilters {
  import opened Common

  type Pair = (string, string)

  /** `params.get(key)`: the value of the first pair with that name. */
  function Get(ps: seq<Pair>, key: string): (r: Option<string>)
    ensures r.None? <==> forall i :: 0 <= i < |ps| ==> ps[i].0 != key
    ensures r.Some? ==> (key, r.value) in ps
  {
    if ps == [] then None
    else if ps[0].0 == key then Some(ps[0].1)
    else Get(ps[1..], key)
  }

  /** The list after `params.delete(key)`. */
  function Without(ps: seq<Pair>, key: string): (r: seq<Pair>)
    ensures |r| <= |ps|
    ensures forall p: Pair :: p in r <==> p in ps && p.0 != key
  {
    if ps == [] then []
    else if ps[0].0 == key then Without(ps[1..], key)
    else [ps[0]] + Without(ps[1..], key)
  }

  /** The list after `params.set(key, value)`. */
  function SetPair(ps: seq<Pair>, key: string, value: string): (r: seq<Pair>)
    ensures (key, value) in r
    ensures forall p: Pair :: p.0 != key ==> (p in r <==> p in ps)
  {
    if ps == [] then [(key, value)]
    else if ps[0].0 == key then [(key, value)] + Without(ps[1..], key)
    else [ps[0]] + SetPair(ps[1..], key, value)
  }

  /** After a delete the name is gone, and every other name reads as before. */
  lemma {:induction false} WithoutGet(ps: seq<Pair>, key: string, other: string)
    ensures Get(Without(ps, key), key).None?
    ensures other != key ==> Get(Without(ps, key), other) == Get(ps, other)
  {
    if ps != [] {
      WithoutGet(ps[1..], key, other);
      if ps[0].0 != key {
        assert ([ps[0]] + Without(ps[1..], key))[1..] == Without(ps[1..], key);
      }
    }
  }

  /** After a set the name reads as the new value, and every other name reads as before. */
  lemma {:induction false} SetPairGet(ps: seq<Pair>, key: string, value: string, other: string)
    ensures Get(SetPair(ps, key, value), key) == Some(value)
    ensures other != key ==> Get(SetPair(ps, key, value), other) == Get(ps, other)
  {
    if ps != [] {
      if ps[0].0 == key {
        WithoutGet(ps[1..], key, other);
        assert ([(key, value)] + Without(ps[1..], key))[1..] == Without(ps[1..], key);
      } else {
        SetPairGet(ps[1..], key, value, other);
        assert ([ps[0]] + SetPair(ps[1..], key, value))[1..] == SetPair(ps[1..], key, value);
      }
    }
  }

  /** A delete keeps the order of what remains: it works on each part of a list separately. */
  lemma {:induction false} WithoutAppend(a: seq<Pair>, b: seq<Pair>, key: string)
    ensures Without(a + b, key) == Without(a, key) + Without(b, key)
  {
    if a == [] {
      assert a + b == b;
    } else {
      assert (a + b)[0] == a[0] && (a + b)[1..] == a[1..] + b;
      WithoutAppend(a[1..], b, key);
    }
  }

  /** A set of a new name appends its pair at the end. */
  lemma {:induction false} SetPairNew(ps: seq<Pair>, key: string, value: string)
    requires forall i :: 0 <= i < |ps| ==> ps[i].0 != key
    ensures SetPair(ps, key, value) == ps + [(key, value)]
  {
    if ps != [] {
      var t := ps[1..];
      SetPairNew(t, key, value);
      assert ps + [(key, value)] == [ps[0]] + (t + [(key, value)]);
    }
  }

  /** A set passes over a pair of another name at the front. */
  lemma SetPairCons(x: Pair, u: seq<Pair>, key: string, value: string)
    requires x.0 != key
    ensures SetPair([x] + u, key, value) == [x] + SetPair(u, key, value)
  {
    assert ([x] + u)[0] == x && ([x] + u)[1..] == u;
  }

  lemma SplitHead(pre: seq<Pair>, x: Pair, w: seq<Pair>)
    requires pre != []
    ensures pre + [x] + w == [pre[0]] + (pre[1..] + [x] + w)
  {
  }

  /**
   * A set of a name whose first pair follows `pre` puts the value in that
   * place, drops the name's later pairs and keeps everything else in order.
   */
  lemma {:induction false} SetPairAt(pre: seq<Pair>, prior: string, rest: seq<Pair>, key: string, value: string)
    requires forall i :: 0 <= i < |pre| ==> pre[i].0 != key
    ensures SetPair(pre + [(key, prior)] + rest, key, value) == pre + [(key, value)] + Without(rest, key)
  {
    if pre == [] {
      var ps := [(key, prior)] + rest;
      assert ps[0].0 == key && ps[1..] == rest;
      assert pre + [(key, prior)] + rest == ps;
    } else {
      var t := pre[1..];
      assert forall i :: 0 <= i < |t| ==> t[i].0 != key by {
        forall i | 0 <= i < |t|
          ensures t[i].0 != key
        {
          assert t[i] == pre[i + 1];
        }
      }
      SetPairAt(t, prior, rest, key, value);
      SplitHead(pre, (key, prior), rest);
      SetPairCons(pre[0], t + [(key, prior)] + rest, key, value);
      SplitHead(pre, (key, value), Without(rest, key));
    }
  }

  /** A set leaves exactly one pair with the name. */
  lemma {:induction false} SetPairOnce(ps: seq<Pair>, key: string, value: string)
    ensures CountKey(SetPair(ps, key, value), key) == 1
  {
    if ps != [] {
      if ps[0].0 == key {
        WithoutCount(ps[1..], key);
        assert ([(key, value)] + Without(ps[1..], key))[1..] == Without(ps[1..], key);
      } else {
        SetPairOnce(ps[1..], key, value);
        assert ([ps[0]] + SetPair(ps[1..], key, value))[1..] == SetPair(ps[1..], key, value);
      }
    }
  }

  /** The number of pairs with a given name. */
  function CountKey(ps: seq<Pair>, key: string): nat
  {
    if ps == [] then 0 else (if ps[0].0 == key then 1 else 0) + CountKey(ps[1..], key)
  }

  lemma {:induction false} WithoutCount(ps: seq<Pair>, key: string)
    ensures CountKey(Without(ps, key), key) == 0
  {
    if ps != [] {
      WithoutCount(ps[1..], key);
      if ps[0].0 != key {
        assert ([ps[0]] + Without(ps[1..], key))[1..] == Without(ps[1..], key);
      }
    }
  }

  /** Deleting twice is deleting once. */
  lemma {:induction false} WithoutIdempotent(ps: seq<Pair>, key: string)
    ensures Without(Without(ps, key), key) == Without(ps, key)
  {
    if ps != [] {
      WithoutIdempotent(ps[1..], key);
      if ps[0].0 != key {
        assert ([ps[0]] + Without(ps[1..], key))[1..] == Without(ps[1..], key);
      }
    }
  }

  /** A name without pairs is left alone by a delete. */
  lemma {:induction false} WithoutAbsent(ps: seq<Pair>, key: string)
    requires Get(ps, key).None?
    ensures Without(ps, key) == ps
  {
    if ps != [] {
      WithoutAbsent(ps[1..], key);
      assert [ps[0]] + ps[1..] == ps;
    }
  }

  /** Setting the same value twice is setting it once. */
  lemma {:induction false} SetPairIdempotent(ps: seq<Pair>, key: string, value: string)
    ensures SetPair(SetPair(ps, key, value), key, value) == SetPair(ps, key, value)
  {
    if ps != [] {
      if ps[0].0 == key {
        var r := [(key, value)] + Without(ps[1..], key);
        assert r[1..] == Without(ps[1..], key);
        WithoutIdempotent(ps[1..], key);
      } else {
        SetPairIdempotent(ps[1..], key, value);
        var r := [ps[0]] + SetPair(ps[1..], key, value);
        assert r[1..] == SetPair(ps[1..], key, value);
      }
    }
  }

  /** A `URLSearchParams` object: the copy `updateFilter` makes and edits. */
  class SearchParams {
    var entries: seq<Pair>

    /** `new URLSearchParams(searchParams)`: a fresh copy of the pairs. */
    constructor (from: seq<Pair>)
      ensures entries == from
    {
      entries := from;
    }

    method Delete(key: string)
      modifies this
      ensures entries == Without(old(entries), key)
      ensures Get(entries, key).None?
      ensures forall k :: k != key ==> Get(entries, k) == Get(old(entries), k)
    {
      forall k | k != key
        ensures Get(Without(entries, key), k) == Get(entries, k)
      {
        WithoutGet(entries, key, k);
      }
      WithoutGet(entries, key, key);
      entries := Without(entries, key);
    }

    method Set(key: string, value: string)
      modifies this
      ensures entries == SetPair(old(entries), key, value)
      ensures Get(entries, key) == Some(value)
      ensures forall k :: k != key ==> Get(entries, k) == Get(old(entries), k)
    {
      forall k | k != key
        ensures Get(SetPair(entries, key, value), k) == Get(entries, k)
      {
        SetPairGet(entries, key, value, k);
      }
      SetPairGet(entries, key, value, key);
      entries := SetPair(entries, key, value);
    }
  }

  /** The filters the browse page passed in; an absent or empty one is not set. */
  datatype Filters = Filters(industry: Option<string>, stage: Option<string>, search: Option<string>)

  /** A filter value is set when it is present and non-empty (JavaScript truthiness). */
  predicate IsSet(v: Option<string>)
  {
    v.Some? && v.value != ""
  }

  /** The "Active filters" panel, with its "Clear all" button, is shown exactly when some filter is set. */
  function ShowsActiveFilters(f: Filters): (shown: bool)
    ensures shown <==> IsSet(f.industry) || IsSet(f.stage) || IsSet(f.search)
    ensures !shown ==> forall v :: v in [f.industry, f.stage, f.search] ==> !IsSet(v)
  {
    IsSet(f.industry) || IsSet(f.stage) || IsSet(f.search)
  }

  /** `currentFilters.industry || 'all'`: what a select shows. */
  function SelectValue(v: Option<string>): (shown: string)
    ensures !IsSet(v) ==> shown == "all"
    ensures IsSet(v) ==> shown == v.value
    ensures shown != ""
  {
    if IsSet(v) then v.value else "all"
  }

  /** An option's text: `value.replace('-', ' ')`, which replaces the first hyphen only. */
  function OptionText(value: string): (text: string)
    ensures |text| == |value|
    ensures '-' !in value ==> text == value
    ensures '-' in value ==> exists k :: 0 <= k < |value| && value[k] == '-' && '-' !in value[..k] && text == value[..k] + " " + value[k + 1..]
  {
    ReplaceFirst(value, '-', ' ')
  }

  /** The query `updateFilter(key, value)` navigates to: the key dropped for "all" or "", set otherwise. */
  function Updated(ps: seq<Pair>, key: string, value: string): seq<Pair>
  {
    if value == "all" || value == "" then Without(ps, key) else SetPair(ps, key, value)
  }

  /** After `updateFilter(key, value)` the key reads the value, or absent for "all" and ""; other keys read as before. */
  lemma UpdatedGet(ps: seq<Pair>, key: string, value: string, other: string)
    ensures Get(Updated(ps, key, value), key) == (if value == "all" || value == "" then None else Some(value))
    ensures other != key ==> Get(Updated(ps, key, value), other) == Get(ps, other)
  {
    if value == "all" || value == "" {
      WithoutGet(ps, key, other);
    } else {
      SetPairGet(ps, key, value, other);
    }
  }

  /**
   * The round trip through the URL: after choosing a value, the select reads
   * back the choice, with "" shown as "all".
   */
  lemma SelectShowsChoice(ps: seq<Pair>, key: string, value: string)
    ensures SelectValue(Get(Updated(ps, key, value), key)) == (if value == "" then "all" else value)
  {
    if value == "all" || value == "" {
      WithoutGet(ps, key, key);
    } else {
      SetPairGet(ps, key, value, key);
    }
  }

  /** Where the router was sent last. */
  datatype Navigation = Query(params: seq<Pair>) | BrowsePath

  const BrowseUrl: string := "/dashboard/investor/browse"

  class FilterBar {
    const searchParams: seq<Pair>
    const currentFilters: Filters
    var search: string
    var pushed: Option<Navigation>

    /** `useState(currentFilters.search || '')` */
    constructor (params: seq<Pair>, filters: Filters)
      ensures searchParams == params && currentFilters == filters
      ensures search == (if IsSet(filters.search) then filters.search.value else "")
      ensures pushed.None?
    {
      searchParams := params;
      currentFilters := filters;
      search := if IsSet(filters.search) then filters.search.value else "";
      pushed := None;
    }

    /** The search box's `onChange`. */
    method SetSearch(text: string)
      modifies this`search
      ensures search == text
    {
      search := text;
    }

    /**
     * `updateFilter(key, value)`: copies the current parameters, deletes the
     * key for "all" or "", sets it otherwise, and navigates to the result;
     * the current parameters themselves are untouched.
     */
    method UpdateFilter(key: string, value: string)
      modifies this`pushed
      ensures pushed == Some(Query(Updated(searchParams, key, value)))
      ensures (value == "all" || value == "") ==> Get(pushed.value.params, key).None?
      ensures (value != "all" && value != "") ==> Get(pushed.value.params, key) == Some(value)
      ensures forall k :: k != key ==> Get(pushed.value.params, k) == Get(searchParams, k)
    {
      var params := new SearchParams(searchParams);
      if value == "all" || value == "" {
        params.Delete(key);
      } else {
        params.Set(key, value);
      }
      pushed := Some(Query(params.entries));
    }

    /** `handleSearch`: the search box's text becomes the "search" parameter; an empty text removes it. */
    method HandleSearch()
      modifies this`pushed
      ensures pushed == Some(Query(Updated(searchParams, "search", search)))
      ensures search == "" ==> Get(pushed.value.params, "search").None?
      ensures forall k :: k != "search" ==> Get(pushed.value.params, k) == Get(searchParams, k)
    {
      UpdateFilter("search", search);
    }

    /** `clearFilters`: the search text is emptied and the bare browse path, with no parameters, is opened. */
    method ClearFilters()
      modifies this`search, this`pushed
      ensures search == "" && pushed == Some(BrowsePath)
    {
      search := "";
      pushed := Some(BrowsePath);
    }
  }

  /**
   * A usage of `updateFilter` and `handleSearch` (company-filters.tsx:21-35),
   * which no component test covers: choosing an industry, then "All
   * Industries", leaves the other parameters as they were.
   */
  method FilterScenario()
  {
    var bar := new FilterBar([("stage", "seed")], Filters(None, Some("seed"), None));
    bar.UpdateFilter("industry", "fintech");
    assert Get(bar.pushed.value.params, "industry") == Some("fintech");
    assert Get(bar.pushed.value.params, "stage") == Some("seed");
    bar.UpdateFilter("industry", "all");
    assert Get(bar.pushed.value.params, "industry").None?;
    bar.SetSearch("");
    bar.HandleSearch();
    assert Get(bar.pushed.value.params, "search").None?;
  }
}
