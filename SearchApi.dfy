/**
 * The search request: the search state serialised into four query
 * parameters on a `URLSearchParams` object, sent only when the route names a city.
 */
module SearchApi {
  import opened Wrappers
  import opened Decimal
  import opened Strings
  import opened SearchPage

  /** One name-value pair of a query string. */
  type Param = (string, string)

  predicate HasName(entries: seq<Param>, name: string)
  {
    exists i :: 0 <= i < |entries| && entries[i].0 == name
  }

  lemma HasNameTail(entries: seq<Param>, name: string)
    requires entries != [] && entries[0].0 != name
    ensures HasName(entries, name) <==> HasName(entries[1..], name)
  {
    if HasName(entries, name) {
      var i :| 0 <= i < |entries| && entries[i].0 == name;
      assert entries[1..][i - 1] == entries[i];
    }
    if HasName(entries[1..], name) {
      var i :| 0 <= i < |entries[1..]| && entries[1..][i].0 == name;
      assert entries[i + 1] == entries[1..][i];
    }
  }

  /** The pairs whose name is not `name`, in order. */
  function Without(entries: seq<Param>, name: string): (r: seq<Param>)
    ensures !HasName(r, name)
    ensures forall p :: p in r <==> p in entries && p.0 != name
    ensures !HasName(entries, name) ==> r == entries
  {
    if entries == [] then []
    else if entries[0].0 == name then Without(entries[1..], name)
    else
      HasNameTail(entries, name);
      assert [entries[0]] + entries[1..] == entries;
      [entries[0]] + Without(entries[1..], name)
  }

  /** `URLSearchParams.get`: the value of the first pair named `name`. */
  function Get(entries: seq<Param>, name: string): (r: Option<string>)
    ensures r.None? <==> !HasName(entries, name)
  {
    if entries == [] then None
    else if entries[0].0 == name then Some(entries[0].1)
    else
      HasNameTail(entries, name);
      Get(entries[1..], name)
  }

  /** `get` finds the pair at index `i` when no earlier pair has its name. */
  lemma {:induction false} GetAt(entries: seq<Param>, i: nat, name: string)
    requires i < |entries| && entries[i].0 == name
    requires forall j :: 0 <= j < i ==> entries[j].0 != name
    ensures Get(entries, name) == Some(entries[i].1)
    decreases i
  {
    if i > 0 {
      assert entries[1..][i - 1] == entries[i];
      forall j | 0 <= j < i - 1
        ensures entries[1..][j].0 != name
      {
        assert entries[1..][j] == entries[j + 1];
      }
      GetAt(entries[1..], i - 1, name);
    }
  }

  /** The first pair named `name` takes `value`; the later pairs with that name are dropped. */
  function ReplaceFirst(entries: seq<Param>, name: string, value: string): seq<Param>
  {
    if entries == [] then []
    else if entries[0].0 == name then [(name, value)] + Without(entries[1..], name)
    else [entries[0]] + ReplaceFirst(entries[1..], name, value)
  }

  /**
   * `URLSearchParams.set` (section 6.2 of the WHATWG URL Standard): when a pair
   * named `name` exists, the first one takes the new value and the others are
   * removed; otherwise the pair is appended.
   */
  function SetParam(entries: seq<Param>, name: string, value: string): seq<Param>
  {
    if HasName(entries, name) then ReplaceFirst(entries, name, value)
    else entries + [(name, value)]
  }

  lemma {:induction false} ReplaceFirstSpec(entries: seq<Param>, name: string, value: string)
    requires HasName(entries, name)
    ensures Get(ReplaceFirst(entries, name, value), name) == Some(value)
    ensures |ReplaceFirst(entries, name, value)| == |Without(ReplaceFirst(entries, name, value), name)| + 1
    ensures Without(ReplaceFirst(entries, name, value), name) == Without(entries, name)
  {
    var r := ReplaceFirst(entries, name, value);
    var tail := entries[1..];
    if entries[0].0 == name {
      assert r[1..] == Without(tail, name);
    } else {
      HasNameTail(entries, name);
      ReplaceFirstSpec(tail, name, value);
      assert r[1..] == ReplaceFirst(tail, name, value);
      assert [entries[0]] + tail == entries;
    }
  }

  /** Index `k` holds the first pair named `name`. */
  predicate FirstNamedAt(entries: seq<Param>, name: string, k: int)
  {
    0 <= k < |entries| && entries[k].0 == name && forall j :: 0 <= j < k ==> entries[j].0 != name
  }

  /** The replaced pair stays where the first pair with its name was. */
  lemma {:induction false} ReplaceFirstAt(entries: seq<Param>, name: string, value: string, k: nat)
    requires FirstNamedAt(entries, name, k)
    ensures ReplaceFirst(entries, name, value) == entries[..k] + [(name, value)] + Without(entries[k + 1..], name)
    decreases k
  {
    var nv := [(name, value)];
    if k == 0 {
      assert entries[..0] + nv == nv;
    } else {
      var tail := entries[1..];
      forall j | 0 <= j < k - 1 ensures tail[j].0 != name {
        assert tail[j] == entries[j + 1];
      }
      assert FirstNamedAt(tail, name, k - 1);
      ReplaceFirstAt(tail, name, value, k - 1);
      var w := Without(entries[k + 1..], name);
      assert tail[k..] == entries[k + 1..];
      assert ReplaceFirst(tail, name, value) == tail[..k - 1] + nv + w;
      assert ReplaceFirst(entries, name, value) == [entries[0]] + ReplaceFirst(tail, name, value);
      assert [entries[0]] + tail[..k - 1] == entries[..k];
      assert [entries[0]] + (tail[..k - 1] + nv + w) == ([entries[0]] + tail[..k - 1]) + nv + w;
    }
  }

  /** Dropping `name` from a list that ends with a pair named `name`. */
  lemma {:induction false} WithoutAppendNamed(entries: seq<Param>, name: string, value: string)
    ensures Without(entries + [(name, value)], name) == Without(entries, name)
  {
    if entries == [] {
      assert [(name, value)][1..] == [];
    } else {
      var e := entries + [(name, value)];
      assert e[1..] == entries[1..] + [(name, value)];
      WithoutAppendNamed(entries[1..], name, value);
    }
  }

  /**
   * After `set`, reading the name gives the new value, exactly one pair has
   * the name, the pairs with other names are untouched and in order, and a
   * name not yet present is appended at the end.
   */
  lemma SetParamSpec(entries: seq<Param>, name: string, value: string)
    ensures Get(SetParam(entries, name, value), name) == Some(value)
    ensures |SetParam(entries, name, value)| == |Without(SetParam(entries, name, value), name)| + 1
    ensures Without(SetParam(entries, name, value), name) == Without(entries, name)
    ensures !HasName(entries, name) ==> SetParam(entries, name, value) == entries + [(name, value)]
    ensures forall k :: FirstNamedAt(entries, name, k) ==>
      SetParam(entries, name, value) == entries[..k] + [(name, value)] + Without(entries[k + 1..], name)
  {
    if HasName(entries, name) {
      ReplaceFirstSpec(entries, name, value);
      forall k | FirstNamedAt(entries, name, k)
        ensures SetParam(entries, name, value) == entries[..k] + [(name, value)] + Without(entries[k + 1..], name)
      {
        ReplaceFirstAt(entries, name, value, k);
      }
    } else {
      var r := entries + [(name, value)];
      GetAt(r, |entries|, name);
      WithoutAppendNamed(entries, name, value);
    }
  }

  /** A mutable `URLSearchParams`, seen as its list of pairs. */
  class SearchParams {
    var entries: seq<Param>

    constructor ()
      ensures entries == []
    {
      entries := [];
    }

    method Set(name: string, value: string)
      modifies this
      ensures entries == SetParam(old(entries), name, value)
    {
      entries := SetParam(entries, name, value);
    }
  }

  /** The parameters of a search for `state`, in the order they are set. */
  function SearchParamsOf(state: SearchState): seq<Param>
  {
    [ ("searchQuery", state.searchQuery),
      ("page", IntToString(state.page)),
      ("selectedCuisines", Join(state.selectedCuisines, ',')),
      ("sortOption", state.sortOption) ]
  }

  /** `set` of a name not yet present appends the pair. */
  lemma SetNewName(entries: seq<Param>, name: string, value: string)
    requires forall j :: 0 <= j < |entries| ==> entries[j].0 != name
    ensures SetParam(entries, name, value) == entries + [(name, value)]
  {
    assert !HasName(entries, name);
  }

  /** Two `set` calls with distinct names on an empty list append both pairs. */
  lemma SetTwoNames(n1: string, v1: string, n2: string, v2: string)
    requires n1 != n2
    ensures SetParam(SetParam([], n1, v1), n2, v2) == [(n1, v1), (n2, v2)]
  {
    SetNewName([(n1, v1)], n2, v2);
  }

  lemma SetThreeNames(n1: string, v1: string, n2: string, v2: string, n3: string, v3: string)
    requires n1 != n2 && n1 != n3 && n2 != n3
    ensures SetParam(SetParam(SetParam([], n1, v1), n2, v2), n3, v3) == [(n1, v1), (n2, v2), (n3, v3)]
  {
    SetTwoNames(n1, v1, n2, v2);
    SetNewName([(n1, v1), (n2, v2)], n3, v3);
  }

  /** Four `set` calls with distinct names, on an empty list, append the four pairs in call order. */
  lemma SetFourNames(n1: string, v1: string, n2: string, v2: string,
                     n3: string, v3: string, n4: string, v4: string)
    requires n1 != n2 && n1 != n3 && n1 != n4 && n2 != n3 && n2 != n4 && n3 != n4
    ensures SetParam(SetParam(SetParam(SetParam([], n1, v1), n2, v2), n3, v3), n4, v4)
      == [(n1, v1), (n2, v2), (n3, v3), (n4, v4)]
  {
    SetThreeNames(n1, v1, n2, v2, n3, v3);
    SetNewName([(n1, v1), (n2, v2), (n3, v3)], n4, v4);
  }

  /** The four `params.set` calls of `createSearchRequest`. */
  method CreateSearchParams(state: SearchState) returns (params: seq<Param>)
    ensures params == SearchParamsOf(state)
  {
    var query, page := state.searchQuery, IntToString(state.page);
    var cuisines, sort := Join(state.selectedCuisines, ','), state.sortOption;
    var p := new SearchParams();
    p.Set("searchQuery", query);
    p.Set("page", page);
    p.Set("selectedCuisines", cuisines);
    p.Set("sortOption", sort);
    params := p.entries;
    SetFourNames("searchQuery", query, "page", page, "selectedCuisines", cuisines, "sortOption", sort);
  }

  /** react-query's cache key: the name of the query and the whole search state. */
  datatype QueryKey = QueryKey(queryName: string, state: SearchState)

  function SearchQueryKey(state: SearchState): (key: QueryKey)
    ensures key.queryName == "searchRestaurants" && key.state == state
  {
    QueryKey("searchRestaurants", state)
  }

  /** A search request: the city in the path, the parameters in the query string. */
  datatype SearchRequest = SearchRequest(key: QueryKey, city: string, params: seq<Param>)

  /** `useSearchRestaurants`: issues the search for `state` only when the route has a city. */
  method UseSearchRestaurants(state: SearchState, city: Option<string>) returns (request: Option<SearchRequest>)
    ensures request.Some? <==> HasCity(city)
    ensures request.Some? ==> request.value == SearchRequest(SearchQueryKey(state), city.value, SearchParamsOf(state))
  {
    if city.Some? && city.value != "" {
      var params := CreateSearchParams(state);
      request := Some(SearchRequest(SearchQueryKey(state), city.value, params));
    } else {
      request := None;
    }
  }

  /**
   * The parameters carry the state faithfully: exactly four names in a fixed
   * order, the query and the sort verbatim, the page as decimal text that reads
   * back as the page, and the cuisines comma-joined ("" for none).
   */
  lemma SearchParamsCarryState(state: SearchState)
    ensures var p := SearchParamsOf(state);
      |p| == 4 && p[0].0 == "searchQuery" && p[1].0 == "page" && p[2].0 == "selectedCuisines" && p[3].0 == "sortOption"
      && Get(p, "searchQuery") == Some(state.searchQuery)
      && Get(p, "sortOption") == Some(state.sortOption)
      && Get(p, "page").Some? && ParseInt(Get(p, "page").value) == Some((state.page, ""))
      && (state.selectedCuisines == [] ==> Get(p, "selectedCuisines") == Some(""))
  {
    var p := SearchParamsOf(state);
    GetAt(p, 0, "searchQuery");
    GetAt(p, 1, "page");
    GetAt(p, 2, "selectedCuisines");
    GetAt(p, 3, "sortOption");
    IntToStringRoundTrip(state.page, "");
    assert IntToString(state.page) + "" == IntToString(state.page);
  }

  /** A non-empty cuisine list whose names contain no comma is recovered by splitting its parameter on ",". */
  lemma CuisinesParamRoundTrip(state: SearchState)
    requires state.selectedCuisines != []
    requires forall i :: 0 <= i < |state.selectedCuisines| ==> ',' !in state.selectedCuisines[i]
    ensures Get(SearchParamsOf(state), "selectedCuisines").Some?
    ensures Split(Get(SearchParamsOf(state), "selectedCuisines").value, ',') == state.selectedCuisines
  {
    GetAt(SearchParamsOf(state), 2, "selectedCuisines");
    SplitJoin(state.selectedCuisines, ',');
  }

  /** Two states share a cache entry exactly when they agree field by field. */
  lemma QueryKeyIdentifiesState(a: SearchState, b: SearchState)
    ensures SearchQueryKey(a) == SearchQueryKey(b) <==>
      a.searchQuery == b.searchQuery && a.page == b.page && a.selectedCuisines == b.selectedCuisines && a.sortOption == b.sortOption
  {
  }
}
