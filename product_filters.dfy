/** The catalog filter panel: the links and buttons that rebuild the catalog URL from the
    current search term, category, material and price range. */
module ProductFilters {
  import opened Wrappers
  import opened Text
  import opened QueryParams

  /** One entry of the object handed to `buildFilterUrl`: a name and a possibly undefined
      value. */
  datatype Filter = Filter(key: string, value: Option<string>)

  /** `value && value !== 'undefined'`. */
  predicate Kept(value: Option<string>) {
    value.Some? && value.value != "" && value.value != "undefined"
  }

  /** The query `buildFilterUrl` produces: the search term first when there is one, then
      `set` for every kept filter, in order. */
  function FilterParams(search: Option<string>, filters: seq<Filter>): Params
    decreases |filters|
  {
    if filters == [] then
      if Truthy(search) then Set([], "search", search.value) else []
    else
      var ps := FilterParams(search, filters[..|filters| - 1]);
      var f := filters[|filters| - 1];
      if Kept(f.value) then Set(ps, f.key, f.value.value) else ps
  }

  /** `buildFilterUrl(filters)`: starts from an empty query, sets `search`, then walks the
      filter entries and sets each kept one. */
  method BuildFilterUrl(search: Option<string>, filters: seq<Filter>) returns (ps: Params)
    ensures ps == FilterParams(search, filters)
  {
    ps := [];
    if Truthy(search) {
      ps := Set(ps, "search", search.value);
    }
    var i := 0;
    while i < |filters|
      invariant 0 <= i <= |filters|
      invariant ps == FilterParams(search, filters[..i])
    {
      var f := filters[i];
      if Kept(f.value) {
        ps := Set(ps, f.key, f.value.value);
      }
      assert filters[..i + 1][..i] == filters[..i];
      i := i + 1;
    }
    assert filters[..|filters|] == filters;
  }

  /** The value of the last kept filter named `k`, if any. */
  function LastKept(filters: seq<Filter>, k: string): Option<string>
    decreases |filters|
  {
    if filters == [] then None
    else
      var f := filters[|filters| - 1];
      if f.key == k && Kept(f.value) then f.value else LastKept(filters[..|filters| - 1], k)
  }

  /** A filter name is among the entries with a kept value exactly when `LastKept` finds
      one. */
  lemma {:induction false} LastKeptFindsKept(filters: seq<Filter>, k: string)
    ensures LastKept(filters, k).Some? <==>
      exists i :: 0 <= i < |filters| && filters[i].key == k && Kept(filters[i].value)
    ensures LastKept(filters, k).Some? ==> Kept(LastKept(filters, k))
    decreases |filters|
  {
    if filters != [] {
      var pre := filters[..|filters| - 1];
      LastKeptFindsKept(pre, k);
      if LastKept(pre, k).Some? {
        var i :| 0 <= i < |pre| && pre[i].key == k && Kept(pre[i].value);
        assert filters[i] == pre[i];
      }
      forall i | 0 <= i < |pre| ensures filters[i] == pre[i] { }
    }
  }

  /** What the built query holds under each name: the last kept filter of that name wins;
      `search` holds the search term unless a filter overrides it; a name with no kept
      filter is absent. */
  lemma {:induction false} FilterParamsGet(search: Option<string>, filters: seq<Filter>, k: string)
    ensures Get(FilterParams(search, filters), k) ==
      if LastKept(filters, k).Some? then LastKept(filters, k)
      else if k == "search" && Truthy(search) then search
      else None
    decreases |filters|
  {
    if filters != [] {
      FilterParamsGet(search, filters[..|filters| - 1], k);
    }
  }

  /** The built query never names a parameter twice. */
  lemma {:induction false} FilterParamsNoRepeats(search: Option<string>, filters: seq<Filter>, k: string)
    ensures Count(FilterParams(search, filters), k) <= 1
    decreases |filters|
  {
    if filters != [] {
      FilterParamsNoRepeats(search, filters[..|filters| - 1], k);
    }
  }

  /** A filter name appears in the built query exactly when one of its entries has a value
      that is non-empty and not the text "undefined"; `search` appears when the current
      search term is non-empty. */
  lemma FilterKeyPresence(search: Option<string>, filters: seq<Filter>, k: string)
    ensures Has(FilterParams(search, filters), k) <==>
      (k == "search" && Truthy(search))
      || exists i :: 0 <= i < |filters| && filters[i].key == k && Kept(filters[i].value)
  {
    FilterParamsGet(search, filters, k);
    LastKeptFindsKept(filters, k);
  }

  // ---------------------------------------------------------------------------
  // Panel inputs and links

  /** The panel's inputs: `search` and the parsed price bounds come from the URL, the
      current category and material from the catalog page. */
  datatype FilterContext = FilterContext(
    search: Option<string>,
    currentCategory: Option<string>,
    currentMaterial: Option<string>,
    currentMinPrice: int,
    currentMaxPrice: int)

  const SliderMin: nat := 0
  const SliderMax: nat := 100000
  const SliderStep: nat := 1000

  /** `searchParams.get('minPrice') || '0'`: the text handed to `parseInt`. */
  function MinPriceText(url: Params): (t: string)
    ensures t != ""
    ensures !Truthy(Get(url, "minPrice")) ==> t == NatToString(SliderMin)
    ensures Truthy(Get(url, "minPrice")) ==> Get(url, "minPrice") == Some(t)
  {
    var m := Get(url, "minPrice");
    if Truthy(m) then m.value else "0"
  }

  /** `searchParams.get('maxPrice') || '100000'`: the text handed to `parseInt`. */
  function MaxPriceText(url: Params): (t: string)
    ensures t != ""
    ensures !Truthy(Get(url, "maxPrice")) ==> t == NatToString(SliderMax)
    ensures Truthy(Get(url, "maxPrice")) ==> Get(url, "maxPrice") == Some(t)
  {
    var m := Get(url, "maxPrice");
    if Truthy(m) then m.value else "100000"
  }

  function PriceEntries(lo: int, hi: int): seq<Filter> {
    [Filter("minPrice", Some(IntToString(lo))), Filter("maxPrice", Some(IntToString(hi)))]
  }

  /** The "All Categories" link: material and the current price bounds, no category. */
  function AllCategoriesLink(c: FilterContext): Params {
    FilterParams(c.search, [Filter("material", c.currentMaterial)]
      + PriceEntries(c.currentMinPrice, c.currentMaxPrice))
  }

  /** The link of one category: that category, the material and the current price bounds. */
  function CategoryLink(c: FilterContext, category: string): Params {
    FilterParams(c.search, [Filter("category", Some(category)), Filter("material", c.currentMaterial)]
      + PriceEntries(c.currentMinPrice, c.currentMaxPrice))
  }

  /** The "All Materials" link: category and the current price bounds, no material. */
  function AllMaterialsLink(c: FilterContext): Params {
    FilterParams(c.search, [Filter("category", c.currentCategory)]
      + PriceEntries(c.currentMinPrice, c.currentMaxPrice))
  }

  /** The link of one material: the category, that material and the current price bounds. */
  function MaterialLink(c: FilterContext, material: string): Params {
    FilterParams(c.search, [Filter("category", c.currentCategory), Filter("material", Some(material))]
      + PriceEntries(c.currentMinPrice, c.currentMaxPrice))
  }

  /** No two entries share a name, as in the object literals the panel passes. */
  predicate DistinctNames(filters: seq<Filter>) {
    forall i, j :: 0 <= i < j < |filters| ==> filters[i].key != filters[j].key
  }

  /** For a name used by exactly one entry, the last kept value is that entry's, if kept. */
  lemma {:induction false} LastKeptOfDistinctName(filters: seq<Filter>, i: nat)
    requires DistinctNames(filters) && i < |filters|
    ensures LastKept(filters, filters[i].key) ==
      if Kept(filters[i].value) then filters[i].value else None
    decreases |filters|
  {
    var pre := filters[..|filters| - 1];
    if i == |filters| - 1 {
      LastKeptFindsKept(pre, filters[i].key);
    } else {
      LastKeptOfDistinctName(pre, i);
    }
  }

  /** With distinct names (and none of them `search`), each entry's name holds its value
      exactly when the value is kept, and `search` holds the search term. */
  lemma BuiltQueryOfDistinctNames(search: Option<string>, filters: seq<Filter>)
    requires DistinctNames(filters)
    requires forall i :: 0 <= i < |filters| ==> filters[i].key != "search"
    ensures forall i :: 0 <= i < |filters| ==>
      Get(FilterParams(search, filters), filters[i].key) ==
        if Kept(filters[i].value) then filters[i].value else None
    ensures Get(FilterParams(search, filters), "search") == (if Truthy(search) then search else None)
  {
    forall i | 0 <= i < |filters|
      ensures Get(FilterParams(search, filters), filters[i].key) ==
        if Kept(filters[i].value) then filters[i].value else None
    {
      LastKeptOfDistinctName(filters, i);
      FilterParamsGet(search, filters, filters[i].key);
    }
    LastKeptFindsKept(filters, "search");
    FilterParamsGet(search, filters, "search");
  }

  /** A name that no entry uses is absent from the built query (unless it is `search`). */
  lemma AbsentNameNotInQuery(search: Option<string>, filters: seq<Filter>, k: string)
    requires k != "search"
    requires forall i :: 0 <= i < |filters| ==> filters[i].key != k
    ensures !Has(FilterParams(search, filters), k)
  {
    FilterKeyPresence(search, filters, k);
  }

  /** A query built from these entries keeps the search term, the price bounds as rendered
      numbers, and category and material exactly when their values are kept. */
  lemma LinkShape(search: Option<string>, category: Option<string>,
                  material: Option<string>, lo: int, hi: int)
    ensures var url := FilterParams(search,
        [Filter("category", category), Filter("material", material)] + PriceEntries(lo, hi));
      && Get(url, "search") == (if Truthy(search) then search else None)
      && Get(url, "category") == (if Kept(category) then category else None)
      && Get(url, "material") == (if Kept(material) then material else None)
      && Get(url, "minPrice") == Some(IntToString(lo))
      && Get(url, "maxPrice") == Some(IntToString(hi))
  {
    var fs := [Filter("category", category), Filter("material", material)] + PriceEntries(lo, hi);
    BuiltQueryOfDistinctNames(search, fs);
    assert fs[0].key == "category" && fs[1].key == "material";
    assert fs[2].key == "minPrice" && fs[3].key == "maxPrice";
  }

  /** "All Categories" drops the category and keeps the material, the price bounds and the
      search term. */
  lemma AllCategoriesKeepsOthers(c: FilterContext)
    ensures var url := AllCategoriesLink(c);
      && !Has(url, "category")
      && Get(url, "material") == (if Kept(c.currentMaterial) then c.currentMaterial else None)
      && Get(url, "minPrice") == Some(IntToString(c.currentMinPrice))
      && Get(url, "maxPrice") == Some(IntToString(c.currentMaxPrice))
      && Get(url, "search") == (if Truthy(c.search) then c.search else None)
  {
    var fs := [Filter("material", c.currentMaterial)]
      + PriceEntries(c.currentMinPrice, c.currentMaxPrice);
    BuiltQueryOfDistinctNames(c.search, fs);
    AbsentNameNotInQuery(c.search, fs, "category");
    assert fs[0].key == "material" && fs[1].key == "minPrice" && fs[2].key == "maxPrice";
  }

  /** "All Materials" drops the material and keeps the category, the price bounds and the
      search term. */
  lemma AllMaterialsKeepsOthers(c: FilterContext)
    ensures var url := AllMaterialsLink(c);
      && !Has(url, "material")
      && Get(url, "category") == (if Kept(c.currentCategory) then c.currentCategory else None)
      && Get(url, "minPrice") == Some(IntToString(c.currentMinPrice))
      && Get(url, "maxPrice") == Some(IntToString(c.currentMaxPrice))
      && Get(url, "search") == (if Truthy(c.search) then c.search else None)
  {
    var fs := [Filter("category", c.currentCategory)]
      + PriceEntries(c.currentMinPrice, c.currentMaxPrice);
    BuiltQueryOfDistinctNames(c.search, fs);
    AbsentNameNotInQuery(c.search, fs, "material");
    assert fs[0].key == "category" && fs[1].key == "minPrice" && fs[2].key == "maxPrice";
  }

  /** A category link selects that category (when it is a usable value) and keeps the
      rest. */
  lemma CategoryLinkSelects(c: FilterContext, category: string)
    requires Kept(Some(category))
    ensures Get(CategoryLink(c, category), "category") == Some(category)
    ensures Get(CategoryLink(c, category), "material") ==
      (if Kept(c.currentMaterial) then c.currentMaterial else None)
    ensures Get(CategoryLink(c, category), "minPrice") == Some(IntToString(c.currentMinPrice))
    ensures Get(CategoryLink(c, category), "maxPrice") == Some(IntToString(c.currentMaxPrice))
    ensures Get(CategoryLink(c, category), "search") == (if Truthy(c.search) then c.search else None)
  {
    LinkShape(c.search, Some(category), c.currentMaterial, c.currentMinPrice, c.currentMaxPrice);
  }

  /** A material link selects that material (when it is a usable value) and keeps the
      rest. */
  lemma MaterialLinkSelects(c: FilterContext, material: string)
    requires Kept(Some(material))
    ensures Get(MaterialLink(c, material), "material") == Some(material)
    ensures Get(MaterialLink(c, material), "category") ==
      (if Kept(c.currentCategory) then c.currentCategory else None)
    ensures Get(MaterialLink(c, material), "minPrice") == Some(IntToString(c.currentMinPrice))
    ensures Get(MaterialLink(c, material), "maxPrice") == Some(IntToString(c.currentMaxPrice))
    ensures Get(MaterialLink(c, material), "search") == (if Truthy(c.search) then c.search else None)
  {
    LinkShape(c.search, c.currentCategory, Some(material), c.currentMinPrice, c.currentMaxPrice);
  }

  /** "Clear All": the catalog URL with the search term only. */
  function ClearFiltersUrl(search: Option<string>): (url: Params)
    ensures url == FilterParams(search, [])
    ensures forall k :: k != "search" ==> !Has(url, k)
    ensures Get(url, "search") == (if Truthy(search) then search else None)
  {
    if Truthy(search) then [Param("search", search.value)] else []
  }

  // ---------------------------------------------------------------------------
  // Preset price bands

  datatype PriceBand = PriceBand(caption: string, min: nat, max: nat)

  const PriceBands: seq<PriceBand> := [
    PriceBand("Under ₹15,000", 0, 15000),
    PriceBand("₹15,000 - ₹30,000", 15000, 30000),
    PriceBand("₹30,000 - ₹50,000", 30000, 50000),
    PriceBand("₹50,000 - ₹75,000", 50000, 75000),
    PriceBand("Above ₹75,000", 75000, 100000)
  ]

  /** The bands tile the slider's range: the first starts at the slider minimum, each ends
      where the next starts, the last ends at the slider maximum, and every bound is a
      slider step. */
  lemma PriceBandsTileSlider()
    ensures |PriceBands| == 5
    ensures PriceBands[0].min == SliderMin && PriceBands[4].max == SliderMax
    ensures forall i :: 0 <= i < 4 ==> PriceBands[i].max == PriceBands[i + 1].min
    ensures forall i :: 0 <= i < 5 ==> PriceBands[i].min < PriceBands[i].max
    ensures forall i :: 0 <= i < 5 ==>
      PriceBands[i].min % SliderStep == 0 && PriceBands[i].max % SliderStep == 0
  {
  }

  /** The link of a preset band: the category, the material and the band's bounds. */
  function PriceBandLink(c: FilterContext, band: PriceBand): Params {
    FilterParams(c.search, [Filter("category", c.currentCategory), Filter("material", c.currentMaterial)]
      + PriceEntries(band.min, band.max))
  }

  /** A band's link asks for exactly that band's bounds, whatever else is selected. */
  lemma PriceBandLinkBounds(c: FilterContext, band: PriceBand)
    ensures Get(PriceBandLink(c, band), "minPrice") == Some(NatToString(band.min))
    ensures Get(PriceBandLink(c, band), "maxPrice") == Some(NatToString(band.max))
    ensures Get(PriceBandLink(c, band), "category") ==
      (if Kept(c.currentCategory) then c.currentCategory else None)
    ensures Get(PriceBandLink(c, band), "material") ==
      (if Kept(c.currentMaterial) then c.currentMaterial else None)
    ensures Get(PriceBandLink(c, band), "search") == (if Truthy(c.search) then c.search else None)
  {
    LinkShape(c.search, c.currentCategory, c.currentMaterial, band.min, band.max);
  }

  // ---------------------------------------------------------------------------
  // The price slider and "Apply Price Filter"

  /** The panel with its price-range state. */
  class FilterPanel {
    const context: FilterContext
    var priceRange: (int, int)

    /** The slider starts at the bounds read from the URL. */
    constructor (context: FilterContext)
      ensures this.context == context
      ensures priceRange == (context.currentMinPrice, context.currentMaxPrice)
    {
      this.context := context;
      priceRange := (context.currentMinPrice, context.currentMaxPrice);
    }

    /** `setPriceRange`, the slider's change handler. */
    method SetPriceRange(lo: int, hi: int)
      modifies this
      ensures priceRange == (lo, hi)
    {
      priceRange := (lo, hi);
    }

    /** `applyPriceFilter`: the current category and material with the slider's bounds. */
    method ApplyPriceFilter() returns (url: Params)
      ensures url == FilterParams(context.search,
        [Filter("category", context.currentCategory), Filter("material", context.currentMaterial)]
        + PriceEntries(priceRange.0, priceRange.1))
      ensures Get(url, "minPrice") == Some(IntToString(priceRange.0))
      ensures Get(url, "maxPrice") == Some(IntToString(priceRange.1))
      ensures Get(url, "category") == (if Kept(context.currentCategory) then context.currentCategory else None)
      ensures Get(url, "material") == (if Kept(context.currentMaterial) then context.currentMaterial else None)
    {
      url := BuildFilterUrl(context.search,
        [Filter("category", context.currentCategory), Filter("material", context.currentMaterial)]
        + PriceEntries(priceRange.0, priceRange.1));
      LinkShape(context.search, context.currentCategory, context.currentMaterial, priceRange.0, priceRange.1);
    }
  }
}
