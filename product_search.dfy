/**
 * The product-search URL state (`src/hooks/useProductSearch.ts`): how the
 * filters are read from the query string, how `updateFilters` and
 * `clearFilters` rewrite it, and the query the search request is sent with.
 */
module ProductSearch {
  import opened Wrappers
  import opened Params
  import Seqs
  import Text
  import Numbers

  /** The `value` argument of `updateFilters`: a string or an array of strings. */
  datatype FilterValue = One(s: string) | Many(vs: seq<string>)

  datatype FilterAction = SetValue | Toggle | RemoveKey

  /** `params.get(key) || fallback`. */
  function ParamOr(es: seq<Entry>, key: string, fallback: string): string {
    match Lookup(es, key)
    case Some(v) => if v == "" then fallback else v
    case None => fallback
  }

  /**
   * The selected values under `key`: the non-empty comma-separated parts of its
   * value, none when it is absent. (The hook writes this both as
   * `p ? p.split(',').filter(Boolean) : []` and as
   * `get(key)?.split(',').filter(Boolean) || []`; the two agree because the
   * empty string has no non-empty part.)
   */
  function Selected(es: seq<Entry>, key: string): (r: seq<string>)
    ensures forall i :: 0 <= i < |r| ==> r[i] != "" && ',' !in r[i]
    ensures !HasKey(es, key) ==> r == []
  {
    match Lookup(es, key)
    case Some(v) => Text.Segments(v, ',')
    case None => []
  }

  /** The filters derived from the query string; `page` is `parseInt(page || '1', 10)`. */
  datatype SearchFilters = SearchFilters(
    search: string, categories: seq<string>, priceRanges: seq<string>, sort: string, page: Option<int>)

  function ParsedFilters(es: seq<Entry>): (f: SearchFilters)
    ensures f.sort != "" && f.categories == Selected(es, "category") && f.priceRanges == Selected(es, "price")
  {
    SearchFilters(ParamOr(es, "search", ""), Selected(es, "category"), Selected(es, "price"),
                  ParamOr(es, "sort", "featured"), Numbers.ParseInt(ParamOr(es, "page", "1")))
  }

  /** The value `toggle` acts on: `valueArr[0]`; an empty array yields `undefined`, which joins as "". */
  function ToggleTarget(value: FilterValue): string {
    match value
    case One(s) => s
    case Many(vs) => if |vs| > 0 then vs[0] else ""
  }

  /** The value `set` writes: the string, or the array joined with commas. */
  function ValueText(value: FilterValue): string {
    match value
    case One(s) => s
    case Many(vs) => Text.Join(vs, ',')
  }

  function Different(t: string): string -> bool {
    (v: string) => v != t
  }

  /** Toggling `t` in the current values: drop it when present, append it otherwise. */
  function Toggled(current: seq<string>, t: string): seq<string> {
    if t in current then Seqs.Filter(current, Different(t)) else current + [t]
  }

  /** The query string after `updateFilters(key, value, action)`. */
  function UpdatedParams(prev: seq<Entry>, key: string, value: FilterValue, action: FilterAction): seq<Entry> {
    var p := if key != "page" then Setting(prev, "page", "1") else prev;
    var current := Selected(p, key);
    match action
    case Toggle =>
      var next := Toggled(current, ToggleTarget(value));
      if |next| > 0 then Setting(p, key, Text.Join(next, ',')) else Deleted(p, key)
    case RemoveKey => Deleted(p, key)
    case SetValue =>
      var s := ValueText(value);
      if s != "" then Setting(p, key, s) else Deleted(p, key)
  }

  /** `updateFilters`, on a fresh `URLSearchParams` copied from the current one. */
  method UpdateFilters(prev: seq<Entry>, key: string, value: FilterValue, action: FilterAction)
    returns (next: seq<Entry>)
    ensures next == UpdatedParams(prev, key, value, action)
  {
    var params := new SearchParams(prev);
    if key != "page" {
      params.Set("page", "1");
    }
    var got := params.Get(key);
    var current := if got.Some? then Text.Segments(got.value, ',') else [];
    match action {
      case Toggle =>
        var t := ToggleTarget(value);
        var values := if t in current then Seqs.Filter(current, Different(t)) else current + [t];
        if |values| > 0 {
          params.Set(key, Text.Join(values, ','));
        } else {
          params.Delete(key);
        }
      case RemoveKey =>
        params.Delete(key);
      case SetValue =>
        var s := ValueText(value);
        if s != "" {
          params.Set(key, s);
        } else {
          params.Delete(key);
        }
    }
    next := params.entries;
  }

  /** Any change to a filter other than the page sends the visitor back to page 1. */
  lemma ChangeResetsPage(prev: seq<Entry>, key: string, value: FilterValue, action: FilterAction)
    requires key != "page"
    ensures Lookup(UpdatedParams(prev, key, value, action), "page") == Some("1")
  {
    var p := Setting(prev, "page", "1");
    LookupSetting(prev, "page", "1", "page");
    var current := Selected(p, key);
    var next := Toggled(current, ToggleTarget(value));
    LookupSetting(p, key, Text.Join(next, ','), "page");
    LookupSetting(p, key, ValueText(value), "page");
    LookupDeleted(p, key, "page");
  }

  /** Keys other than the one changed (and the page) are left as they were. */
  lemma OtherKeysKept(prev: seq<Entry>, key: string, value: FilterValue, action: FilterAction, other: string)
    requires other != key && other != "page"
    ensures Lookup(UpdatedParams(prev, key, value, action), other) == Lookup(prev, other)
  {
    var p := if key != "page" then Setting(prev, "page", "1") else prev;
    LookupSetting(prev, "page", "1", other);
    var current := Selected(p, key);
    var next := Toggled(current, ToggleTarget(value));
    LookupSetting(p, key, Text.Join(next, ','), other);
    LookupSetting(p, key, ValueText(value), other);
    LookupDeleted(p, key, other);
  }

  /** `remove` deletes the key. */
  lemma RemoveClears(prev: seq<Entry>, key: string, value: FilterValue)
    ensures Lookup(UpdatedParams(prev, key, value, RemoveKey), key) == None
  {
    var p := if key != "page" then Setting(prev, "page", "1") else prev;
    LookupDeleted(p, key, key);
  }

  /** `set` writes the value, and an empty value deletes the key instead. */
  lemma SetWrites(prev: seq<Entry>, key: string, value: FilterValue)
    ensures Lookup(UpdatedParams(prev, key, value, SetValue), key) ==
      (if ValueText(value) == "" then None else Some(ValueText(value)))
  {
    var p := if key != "page" then Setting(prev, "page", "1") else prev;
    LookupSetting(p, key, ValueText(value), key);
    LookupDeleted(p, key, key);
  }

  /** A page change writes the page number so that `parseInt` reads it back. */
  lemma PageChangeReadsBack(prev: seq<Entry>, n: int)
    ensures ParsedFilters(UpdatedParams(prev, "page", One(Numbers.IntText(n)), SetValue)).page == Some(n)
  {
    SetWrites(prev, "page", One(Numbers.IntText(n)));
    Numbers.ParseIntText(n);
  }

  lemma ToggledParts(current: seq<string>, t: string)
    requires forall i :: 0 <= i < |current| ==> current[i] != "" && ',' !in current[i]
    requires t != "" && ',' !in t
    ensures forall i :: 0 <= i < |Toggled(current, t)| ==>
      Toggled(current, t)[i] != "" && ',' !in Toggled(current, t)[i]
  {
    var r := Toggled(current, t);
    forall i | 0 <= i < |r| ensures r[i] != "" && ',' !in r[i] {
      if t in current {
        Seqs.FilterMembership(current, Different(t), r[i]);
      }
    }
  }

  /**
   * Toggling a value (non-empty, without a comma) under a key toggles it in the
   * selected list: removed when selected, appended last otherwise.
   */
  lemma ToggleSelects(prev: seq<Entry>, key: string, v: string)
    requires v != "" && ',' !in v
    ensures Selected(UpdatedParams(prev, key, One(v), Toggle), key) == Toggled(Selected(prev, key), v)
  {
    var p := if key != "page" then Setting(prev, "page", "1") else prev;
    LookupSetting(prev, "page", "1", key);
    assert Selected(p, key) == Selected(prev, key);
    var current := Selected(p, key);
    var next := Toggled(current, v);
    if |next| > 0 {
      ToggledParts(current, v);
      LookupSetting(p, key, Text.Join(next, ','), key);
      Text.SegmentsOfJoin(next, ',');
    } else {
      LookupDeleted(p, key, key);
    }
  }

  /**
   * A toggle that leaves no value deletes the key rather than storing "";
   * one that leaves values stores them joined by ",".
   */
  lemma ToggleEmptyDeletes(prev: seq<Entry>, key: string, value: FilterValue)
    ensures var p := if key != "page" then Setting(prev, "page", "1") else prev;
      var next := Toggled(Selected(p, key), ToggleTarget(value));
      Lookup(UpdatedParams(prev, key, value, Toggle), key) == if next == [] then None else Some(Text.Join(next, ','))
  {
    var p := if key != "page" then Setting(prev, "page", "1") else prev;
    var next := Toggled(Selected(p, key), ToggleTarget(value));
    if next == [] {
      LookupDeleted(p, key, key);
    } else {
      LookupSetting(p, key, Text.Join(next, ','), key);
    }
  }

  /** Toggling an unselected value twice gives back the selection it started from. */
  lemma ToggleTwice(prev: seq<Entry>, key: string, v: string)
    requires v != "" && ',' !in v
    requires v !in Selected(prev, key)
    ensures var once := UpdatedParams(prev, key, One(v), Toggle);
      Selected(UpdatedParams(once, key, One(v), Toggle), key) == Selected(prev, key)
  {
    var current := Selected(prev, key);
    var once := UpdatedParams(prev, key, One(v), Toggle);
    ToggleSelects(prev, key, v);
    ToggleSelects(once, key, v);
    assert Selected(once, key) == current + [v];
    Seqs.FilterAppend(current, [v], Different(v));
    Seqs.FilterAll(current, Different(v));
    assert Seqs.Filter([v], Different(v)) == [];
  }

  /** An empty array toggles like the empty string. */
  lemma ToggleEmptyArray(prev: seq<Entry>, key: string)
    ensures UpdatedParams(prev, key, Many([]), Toggle) == UpdatedParams(prev, key, One(""), Toggle)
  {
  }

  /** The query string after `clearFilters`: search and sort survive when set, then page 1. */
  function ClearedParams(prev: seq<Entry>): seq<Entry> {
    var s := ParamOr(prev, "search", "");
    var t := ParamOr(prev, "sort", "");
    var c0: seq<Entry> := [];
    var c1 := if s != "" then Setting(c0, "search", s) else c0;
    var c2 := if t != "" then Setting(c1, "sort", t) else c1;
    Setting(c2, "page", "1")
  }

  method ClearFilters(prev: seq<Entry>) returns (next: seq<Entry>)
    ensures next == ClearedParams(prev)
  {
    var cleaned := new SearchParams([]);
    var s := ParamOr(prev, "search", "");
    if s != "" {
      cleaned.Set("search", s);
    }
    var t := ParamOr(prev, "sort", "");
    if t != "" {
      cleaned.Set("sort", t);
    }
    cleaned.Set("page", "1");
    next := cleaned.entries;
  }

  /** Clearing drops every category and price selection and keeps the search text and sort. */
  lemma ClearKeepsSearchAndSort(prev: seq<Entry>)
    ensures var r := ClearedParams(prev);
      Selected(r, "category") == [] && Selected(r, "price") == [] &&
      Lookup(r, "page") == Some("1") &&
      ParamOr(r, "search", "") == ParamOr(prev, "search", "") &&
      ParamOr(r, "sort", "featured") == ParamOr(prev, "sort", "featured") &&
      |r| <= 3
  {
    var s := ParamOr(prev, "search", "");
    var t := ParamOr(prev, "sort", "");
    var c0: seq<Entry> := [];
    var c1 := if s != "" then Setting(c0, "search", s) else c0;
    var c2 := if t != "" then Setting(c1, "sort", t) else c1;
    var r := Setting(c2, "page", "1");
    LookupSetting(c0, "search", s, "search");
    LookupSetting(c0, "search", s, "sort");
    LookupSetting(c0, "search", s, "category");
    LookupSetting(c0, "search", s, "price");
    LookupSetting(c1, "sort", t, "search");
    LookupSetting(c1, "sort", t, "sort");
    LookupSetting(c1, "sort", t, "category");
    LookupSetting(c1, "sort", t, "price");
    LookupSetting(c2, "page", "1", "search");
    LookupSetting(c2, "page", "1", "sort");
    LookupSetting(c2, "page", "1", "category");
    LookupSetting(c2, "page", "1", "price");
    LookupSetting(c2, "page", "1", "page");
    assert |c1| <= 1;
    assert |c2| <= 2 by { if t != "" { SettingGrowsByOne(c1, "sort", t); } }
    SettingGrowsByOne(c2, "page", "1");
  }

  lemma {:induction false} SettingGrowsByOne(es: seq<Entry>, key: string, value: string)
    ensures |Setting(es, key, value)| <= |es| + 1
    decreases |es|
  {
    if |es| > 0 && es[0].key != key {
      SettingGrowsByOne(es[1..], key, value);
    }
  }

  /** `filters.page || 1`: a `NaN` or zero page becomes 1. */
  function PageOrFirst(page: Option<int>): int {
    if page.None? || page.value == 0 then 1 else page.value
  }

  /**
   * The properties of the object literal the request's `URLSearchParams` is
   * built from, before the price spreads, in their written order.
   */
  function BaseQuery(f: SearchFilters): seq<Entry> {
    [Entry("search", f.search), Entry("sort", if f.sort == "" then "featured" else f.sort),
     Entry("category", Text.Join(f.categories, ',')),
     Entry("page", Numbers.IntText(PageOrFirst(f.page))), Entry("limit", "12")]
  }

  /**
   * The five conditional spreads, applied in order: each selected range copies
   * its bounds into the object, a later spread overwriting an earlier bound in place.
   */
  function PriceSpread(o: seq<Entry>, ranges: seq<string>): seq<Entry> {
    var o1 := if "under-25" in ranges then Assigned(o, "maxPrice", "25") else o;
    var o2 := if "over-200" in ranges then Assigned(o1, "minPrice", "200") else o1;
    var o3 := PairSpread(o2, "25", "50", "25-50" in ranges);
    var o4 := PairSpread(o3, "50", "100", "50-100" in ranges);
    PairSpread(o4, "100", "200", "100-200" in ranges)
  }

  /** The query the search request is sent with. */
  function FetchQuery(f: SearchFilters): seq<Entry> {
    PriceSpread(BaseQuery(f), f.priceRanges)
  }

  /** The bound a set of ranges yields: the last selected range in spread order that sets it. */
  function MinBound(r: seq<string>): Option<string> {
    if "100-200" in r then Some("100")
    else if "50-100" in r then Some("50")
    else if "25-50" in r then Some("25")
    else if "over-200" in r then Some("200")
    else None
  }

  function MaxBound(r: seq<string>): Option<string> {
    if "100-200" in r then Some("200")
    else if "50-100" in r then Some("100")
    else if "25-50" in r then Some("50")
    else if "under-25" in r then Some("25")
    else None
  }

  /** One spread of a single bound: the bound takes the value, the other bound and every other key stay. */
  lemma AssignedBound(o: seq<Entry>, k: string, v: string, q: string)
    ensures Lookup(Assigned(o, k, v), q) == if q == k then Some(v) else Lookup(o, q)
  {
    LookupAssigned(o, k, v, q);
  }

  /** The price bounds sent: the later range in the spread order wins each bound. */
  lemma PriceBounds(o: seq<Entry>, ranges: seq<string>)
    requires !HasKey(o, "minPrice") && !HasKey(o, "maxPrice")
    ensures Lookup(PriceSpread(o, ranges), "minPrice") == MinBound(ranges)
    ensures Lookup(PriceSpread(o, ranges), "maxPrice") == MaxBound(ranges)
  {
    var o1 := if "under-25" in ranges then Assigned(o, "maxPrice", "25") else o;
    AssignedBound(o, "maxPrice", "25", "minPrice");
    AssignedBound(o, "maxPrice", "25", "maxPrice");
    var o2 := if "over-200" in ranges then Assigned(o1, "minPrice", "200") else o1;
    AssignedBound(o1, "minPrice", "200", "minPrice");
    AssignedBound(o1, "minPrice", "200", "maxPrice");
    var o3 := PairSpread(o2, "25", "50", "25-50" in ranges);
    var o4 := PairSpread(o3, "50", "100", "50-100" in ranges);
    var o5 := PairSpread(o4, "100", "200", "100-200" in ranges);
  }

  /** `...{ minPrice: lo, maxPrice: hi }` when `on`, read back on both bounds. */
  function PairSpread(o: seq<Entry>, lo: string, hi: string, on: bool): (r: seq<Entry>)
    ensures Lookup(r, "minPrice") == if on then Some(lo) else Lookup(o, "minPrice")
    ensures Lookup(r, "maxPrice") == if on then Some(hi) else Lookup(o, "maxPrice")
  {
    if on then
      var a := Assigned(o, "minPrice", lo);
      AssignedBound(o, "minPrice", lo, "maxPrice");
      AssignedBound(o, "minPrice", lo, "minPrice");
      AssignedBound(a, "maxPrice", hi, "minPrice");
      AssignedBound(a, "maxPrice", hi, "maxPrice");
      Assigned(a, "maxPrice", hi)
    else o
  }

  lemma PairSpreadKeeps(o: seq<Entry>, lo: string, hi: string, on: bool, q: string)
    requires q != "minPrice" && q != "maxPrice"
    ensures Lookup(PairSpread(o, lo, hi, on), q) == Lookup(o, q)
  {
    AssignedBound(o, "minPrice", lo, q);
    AssignedBound(Assigned(o, "minPrice", lo), "maxPrice", hi, q);
  }

  /** The price spreads touch no key but the two bounds. */
  lemma PriceSpreadKeepsOthers(o: seq<Entry>, ranges: seq<string>, q: string)
    requires q != "minPrice" && q != "maxPrice"
    ensures Lookup(PriceSpread(o, ranges), q) == Lookup(o, q)
  {
    var o1 := if "under-25" in ranges then Assigned(o, "maxPrice", "25") else o;
    AssignedBound(o, "maxPrice", "25", q);
    var o2 := if "over-200" in ranges then Assigned(o1, "minPrice", "200") else o1;
    AssignedBound(o1, "minPrice", "200", q);
    var o3 := PairSpread(o2, "25", "50", "25-50" in ranges);
    PairSpreadKeeps(o2, "25", "50", "25-50" in ranges, q);
    var o4 := PairSpread(o3, "50", "100", "50-100" in ranges);
    PairSpreadKeeps(o3, "50", "100", "50-100" in ranges, q);
    PairSpreadKeeps(o4, "100", "200", "100-200" in ranges, q);
  }

  /** Selecting both open ranges sends an empty interval: at least 200 and at most 25. */
  lemma OpenRangesConflict(f: SearchFilters)
    requires f.priceRanges == ["under-25", "over-200"]
    ensures Lookup(FetchQuery(f), "minPrice") == Some("200")
    ensures Lookup(FetchQuery(f), "maxPrice") == Some("25")
  {
    PriceBounds(BaseQuery(f), f.priceRanges);
  }

  lemma BaseQueryNames(f: SearchFilters)
    ensures Lookup(BaseQuery(f), "category") == Some(Text.Join(f.categories, ','))
    ensures Lookup(BaseQuery(f), "limit") == Some("12")
  {
    BaseQueryShape(f.search, if f.sort == "" then "featured" else f.sort,
      Text.Join(f.categories, ','), Numbers.IntText(PageOrFirst(f.page)));
  }

  /** The five entries of the base object, whatever their values. */
  lemma BaseQueryShape(search: string, sort: string, category: string, page: string)
    ensures var b := [Entry("search", search), Entry("sort", sort), Entry("category", category),
                      Entry("page", page), Entry("limit", "12")];
      Lookup(b, "category") == Some(category) && Lookup(b, "limit") == Some("12")
  {
    var e0, e1, e2, e3, e4 := Entry("search", search), Entry("sort", sort), Entry("category", category),
      Entry("page", page), Entry("limit", "12");
    assert [e0, e1, e2, e3, e4] == [e0] + ([e1] + ([e2] + ([e3] + [e4])));
    LookupCons(e3, [e4], "limit");
    LookupCons(e2, [e3] + [e4], "limit");
    LookupCons(e1, [e2] + ([e3] + [e4]), "limit");
    LookupCons(e0, [e1] + ([e2] + ([e3] + [e4])), "limit");
    LookupCons(e1, [e2] + ([e3] + [e4]), "category");
    LookupCons(e0, [e1] + ([e2] + ([e3] + [e4])), "category");
  }

  /** The request names the selected categories joined back with commas, and the page size 12. */
  lemma FetchQueryCategory(f: SearchFilters)
    ensures Lookup(FetchQuery(f), "category") == Some(Text.Join(f.categories, ','))
    ensures Lookup(FetchQuery(f), "limit") == Some("12")
  {
    BaseQueryNames(f);
    PriceSpreadKeepsOthers(BaseQuery(f), f.priceRanges, "category");
    PriceSpreadKeepsOthers(BaseQuery(f), f.priceRanges, "limit");
  }
}
