/** The catalog page: it turns the optional URL parameters into the datastore's filter (the
    `where` clause) and ordering, renders the heading and the result count, and hands the
    current filters to the filter panel. */
module ProductsPage {
  import opened Wrappers
  import opened Text
  import QueryParams
  import ProductSort
  import ProductFilters

  /** What `parseFloat` or `parseInt` returns: a number, or NaN. */
  datatype Number = NaN | Num(value: real)

  /** A price bound as it arrives in the URL: its text, and what `parseFloat` and
      `parseInt` make of that text. Whether the bound counts as given depends on the text
      alone, so "0" counts. */
  datatype PriceText = PriceText(text: string, asFloat: Number, asInt: Number)

  /** The catalog URL's parameters; each may be absent. */
  datatype SearchParams = SearchParams(
    category: Option<string>,
    material: Option<string>,
    search: Option<string>,
    minPrice: Option<PriceText>,
    maxPrice: Option<PriceText>,
    sortBy: Option<string>)

  /** `if (minPrice)` on the URL text. */
  predicate Given(p: Option<PriceText>) {
    p.Some? && p.value.text != ""
  }

  // ---------------------------------------------------------------------------
  // The where clause and what it selects

  datatype TextField = NameField | DescriptionField | BrandField

  /** `{ <field>: { contains: needle, mode: 'insensitive' } }`. */
  datatype TextMatch = TextMatch(field: TextField, needle: string, insensitive: bool)

  /** `{ gte?, lte? }` on the price. */
  datatype PriceFilter = PriceFilter(gte: Option<Number>, lte: Option<Number>)

  /** The `where` object: equality on category and material, a price range, and an `OR`
      list of text matches; an absent field constrains nothing. */
  datatype Where = Where(
    category: Option<string>,
    material: Option<string>,
    price: Option<PriceFilter>,
    anyOf: Option<seq<TextMatch>>)

  const NoConstraint := Where(None, None, None, None)

  /** The product columns the filter reads. */
  datatype Product = Product(
    name: string, description: string, brand: string,
    category: string, material: string, price: real)

  function FieldText(p: Product, f: TextField): string {
    match f
    case NameField => p.name
    case DescriptionField => p.description
    case BrandField => p.brand
  }

  predicate Holds(m: TextMatch, p: Product) {
    var t := FieldText(p, m.field);
    if m.insensitive then ContainsIgnoringCase(t, m.needle) else Contains(t, m.needle)
  }

  predicate AnyHolds(ms: seq<TextMatch>, p: Product) {
    exists i :: 0 <= i < |ms| && Holds(ms[i], p)
  }

  /** Comparisons with NaN are false. */
  predicate AtLeast(x: real, bound: Number) {
    bound.Num? && bound.value <= x
  }

  predicate AtMost(x: real, bound: Number) {
    bound.Num? && x <= bound.value
  }

  /** How the datastore reads a `where` clause: every constraint present must hold; an `OR`
      list needs one of its matches. */
  predicate Selects(w: Where, p: Product) {
    && (w.category.Some? ==> p.category == w.category.value)
    && (w.material.Some? ==> p.material == w.material.value)
    && (w.price.Some? ==> (w.price.value.gte.Some? ==> AtLeast(p.price, w.price.value.gte.value))
                          && (w.price.value.lte.Some? ==> AtMost(p.price, w.price.value.lte.value)))
    && (w.anyOf.Some? ==> AnyHolds(w.anyOf.value, p))
  }

  /** What the URL asks for, stated on the parameters themselves: the category and the
      material when given, a price within the given bounds (both inclusive), and the search
      term in the name, the description or the brand, ignoring case. */
  predicate Wanted(q: SearchParams, p: Product) {
    && (Truthy(q.category) ==> p.category == q.category.value)
    && (Truthy(q.material) ==> p.material == q.material.value)
    && (Given(q.minPrice) ==> AtLeast(p.price, q.minPrice.value.asFloat))
    && (Given(q.maxPrice) ==> AtMost(p.price, q.maxPrice.value.asFloat))
    && (Truthy(q.search) ==>
          || ContainsIgnoringCase(p.name, q.search.value)
          || ContainsIgnoringCase(p.description, q.search.value)
          || ContainsIgnoringCase(p.brand, q.search.value))
  }

  /** The `OR` list for a search term. */
  function SearchClause(s: string): seq<TextMatch> {
    [TextMatch(NameField, s, true), TextMatch(DescriptionField, s, true), TextMatch(BrandField, s, true)]
  }

  /** The search clause holds exactly when the term occurs, ignoring case, in the name, the
      description or the brand. */
  lemma SearchClauseMeaning(s: string, p: Product)
    ensures AnyHolds(SearchClause(s), p) <==>
      || ContainsIgnoringCase(p.name, s)
      || ContainsIgnoringCase(p.description, s)
      || ContainsIgnoringCase(p.brand, s)
  {
    var ms := SearchClause(s);
    assert Holds(ms[0], p) <==> ContainsIgnoringCase(p.name, s);
    assert Holds(ms[1], p) <==> ContainsIgnoringCase(p.description, s);
    assert Holds(ms[2], p) <==> ContainsIgnoringCase(p.brand, s);
  }

  /** The where-clause builder. It starts from an empty object and adds each constraint
      whose parameter is given: category and material by equality, a price object when
      either bound's text is non-empty (with `gte` from the minimum and `lte` from the
      maximum only), and the three-way case-insensitive `OR` for a search term. The clause
      selects exactly the products the URL asks for. */
  method BuildWhere(q: SearchParams) returns (w: Where)
    ensures w.category.Some? <==> Truthy(q.category)
    ensures w.category.Some? ==> w.category == q.category
    ensures w.material.Some? <==> Truthy(q.material)
    ensures w.material.Some? ==> w.material == q.material
    ensures w.price.Some? <==> Given(q.minPrice) || Given(q.maxPrice)
    ensures w.price.Some? ==> (w.price.value.gte.Some? <==> Given(q.minPrice))
    ensures w.price.Some? ==> (w.price.value.lte.Some? <==> Given(q.maxPrice))
    ensures w.price.Some? && Given(q.minPrice) ==> w.price.value.gte == Some(q.minPrice.value.asFloat)
    ensures w.price.Some? && Given(q.maxPrice) ==> w.price.value.lte == Some(q.maxPrice.value.asFloat)
    ensures w.anyOf.Some? <==> Truthy(q.search)
    ensures w.anyOf.Some? ==>
      && |w.anyOf.value| == 3
      && (forall i :: 0 <= i < 3 ==> w.anyOf.value[i].needle == q.search.value && w.anyOf.value[i].insensitive)
      && w.anyOf.value[0].field == NameField && w.anyOf.value[1].field == DescriptionField
      && w.anyOf.value[2].field == BrandField
    ensures w == NoConstraint <==>
      !Truthy(q.category) && !Truthy(q.material) && !Given(q.minPrice) && !Given(q.maxPrice) && !Truthy(q.search)
    ensures forall p :: Selects(w, p) <==> Wanted(q, p)
  {
    w := NoConstraint;
    if Truthy(q.category) {
      w := w.(category := q.category);
    }
    if Truthy(q.material) {
      w := w.(material := q.material);
    }
    if Given(q.minPrice) || Given(q.maxPrice) {
      var price := PriceFilter(None, None);
      if Given(q.minPrice) {
        price := price.(gte := Some(q.minPrice.value.asFloat));
      }
      if Given(q.maxPrice) {
        price := price.(lte := Some(q.maxPrice.value.asFloat));
      }
      w := w.(price := Some(price));
    }
    if Truthy(q.search) {
      w := w.(anyOf := Some(SearchClause(q.search.value)));
    }
    forall p ensures Selects(w, p) <==> Wanted(q, p) {
      if Truthy(q.search) {
        SearchClauseMeaning(q.search.value, p);
      }
    }
  }

  /** With no constraint every product is listed. */
  lemma NoConstraintSelectsAll(p: Product)
    ensures Selects(NoConstraint, p)
  {
  }

  /** The search ignores case: searching for the lower-cased term finds the same products. */
  lemma SearchIgnoresCase(q: SearchParams, p: Product)
    requires Truthy(q.search)
    ensures Wanted(q.(search := Some(Lower(q.search.value))), p) <==> Wanted(q, p)
  {
    LowerIdempotent(q.search.value);
  }

  /** A product whose name contains the search term verbatim is found. */
  lemma VerbatimNameMatchIsFound(q: SearchParams, p: Product)
    requires Truthy(q.search) && Contains(p.name, q.search.value)
    requires !Truthy(q.category) && !Truthy(q.material) && !Given(q.minPrice) && !Given(q.maxPrice)
    ensures Wanted(q, p)
  {
    ExactMatchIsCaseInsensitiveMatch(p.name, q.search.value);
  }

  // ---------------------------------------------------------------------------
  // Ordering

  datatype SortField = CreatedAt | Price | Name | Rating
  datatype Direction = Asc | Desc
  datatype OrderBy = OrderBy(field: SortField, direction: Direction)

  const NewestFirst := OrderBy(CreatedAt, Desc)

  /** The orderings the recognised `sortBy` values stand for. */
  const SortTable: map<string, OrderBy> := map[
    "price-low" := OrderBy(Price, Asc),
    "price-high" := OrderBy(Price, Desc),
    "name" := OrderBy(Name, Asc),
    "rating" := OrderBy(Rating, Desc),
    "newest" := NewestFirst
  ]

  /** The ordering for a `sortBy` value: the table's entry, newest first otherwise. */
  function OrderFor(sortBy: Option<string>): OrderBy {
    if sortBy.Some? && sortBy.value in SortTable then SortTable[sortBy.value] else NewestFirst
  }

  /** The `orderBy` switch: newest first unless `sortBy` names another ordering; an absent
      or unrecognised value keeps newest first. */
  method BuildOrderBy(sortBy: Option<string>) returns (o: OrderBy)
    ensures o == OrderFor(sortBy)
    ensures o != NewestFirst ==> sortBy.Some? && sortBy.value in SortTable && sortBy.value != "newest"
  {
    o := NewestFirst;
    if sortBy.Some? {
      match sortBy.value {
        case "price-low" => o := OrderBy(Price, Asc);
        case "price-high" => o := OrderBy(Price, Desc);
        case "name" => o := OrderBy(Name, Asc);
        case "rating" => o := OrderBy(Rating, Desc);
        case "newest" => o := NewestFirst;
        case _ => o := NewestFirst;
      }
    }
  }

  /** The sort menu offers exactly the values the page recognises, and each of its options
      orders the catalog differently. */
  lemma SortMenuMatchesSwitch()
    ensures forall i :: 0 <= i < |ProductSort.SortOptions| ==> ProductSort.SortOptions[i].value in SortTable
    ensures forall k :: k in SortTable ==> exists i :: 0 <= i < |ProductSort.SortOptions| && ProductSort.SortOptions[i].value == k
    ensures forall i, j :: 0 <= i < j < |ProductSort.SortOptions| ==>
      SortTable[ProductSort.SortOptions[i].value] != SortTable[ProductSort.SortOptions[j].value]
  {
    var o := ProductSort.SortOptions;
    assert o[0].value == "newest" && o[1].value == "price-low" && o[2].value == "price-high";
    assert o[3].value == "name" && o[4].value == "rating";
  }

  /** The option the menu shows as selected orders the catalog the way the page does. */
  lemma SelectedSortAgreesWithOrdering(currentSort: Option<string>)
    ensures OrderFor(Some(ProductSort.SelectedSort(currentSort))) == OrderFor(currentSort)
  {
  }

  // ---------------------------------------------------------------------------
  // What the page renders around the list

  /** The props handed to the filter panel: the current category and material as they are,
      and each price bound as `parseInt` of its text when that text is non-empty. */
  datatype FilterProps = FilterProps(
    currentCategory: Option<string>,
    currentMaterial: Option<string>,
    minPrice: Option<Number>,
    maxPrice: Option<Number>)

  function FilterPropsFor(q: SearchParams): (props: FilterProps)
    ensures props.currentCategory == q.category && props.currentMaterial == q.material
    ensures props.minPrice.Some? <==> Given(q.minPrice)
    ensures props.maxPrice.Some? <==> Given(q.maxPrice)
    ensures Given(q.minPrice) ==> props.minPrice == Some(q.minPrice.value.asInt)
    ensures Given(q.maxPrice) ==> props.maxPrice == Some(q.maxPrice.value.asInt)
  {
    FilterProps(q.category, q.material,
      if Given(q.minPrice) then Some(q.minPrice.value.asInt) else None,
      if Given(q.maxPrice) then Some(q.maxPrice.value.asInt) else None)
  }

  /** The heading: "<category> Furniture" for a category, "All Products" otherwise; the two
      never coincide. */
  function Heading(category: Option<string>): (h: string)
    ensures Truthy(category) ==> h == category.value + " Furniture"
    ensures h == "All Products" <==> !Truthy(category)
  {
    if Truthy(category) then
      var h := category.value + " Furniture";
      assert h[|h| - 1] == 'e';
      h
    else "All Products"
  }

  /** "<n> product found" or "<n> products found". */
  function CountLabel(n: nat): string {
    NatToString(n) + " product" + (if n != 1 then "s" else "") + " found"
  }

  /** The noun is plural exactly when the count is not one. */
  lemma CountLabelPluralUnlessOne(n: nat)
    ensures CountLabel(n) == NatToString(n) + " products found" <==> n != 1
    ensures n == 1 ==> CountLabel(n) == "1 product found"
  {
    if n == 1 {
      assert |CountLabel(n)| != |NatToString(n) + " products found"|;
    }
  }

  /** The line under the heading: the search term and the material when given, then the
      count. */
  function ResultSummary(q: SearchParams, n: nat): (s: string)
    ensures |s| >= |CountLabel(n)| && s[|s| - |CountLabel(n)|..] == CountLabel(n)
    ensures Truthy(q.search) ==> IsPrefix("Search results for \"" + q.search.value + "\" • ", s)
    ensures Truthy(q.material) ==> var m := "Material: " + q.material.value + " • " + CountLabel(n);
      |s| >= |m| && s[|s| - |m|..] == m
    ensures !Truthy(q.search) && !Truthy(q.material) ==> s == CountLabel(n)
    ensures |s| == (if Truthy(q.search) then |"Search results for \"" + q.search.value + "\" • "| else 0)
                 + (if Truthy(q.material) then |"Material: " + q.material.value + " • "| else 0)
                 + |CountLabel(n)|
  {
    var searchPart := if Truthy(q.search) then "Search results for \"" + q.search.value + "\" • " else "";
    var materialPart := if Truthy(q.material) then "Material: " + q.material.value + " • " else "";
    var s := searchPart + materialPart + CountLabel(n);
    assert s[..|searchPart|] == searchPart;
    s
  }

  /** The filter panel's "All Categories" link, for the filters this page passes it, drops
      the category and keeps the material the URL asked for. */
  lemma AllCategoriesFromPage(q: SearchParams, search: Option<string>, lo: int, hi: int)
    ensures var props := FilterPropsFor(q);
      var url := ProductFilters.AllCategoriesLink(
        ProductFilters.FilterContext(search, props.currentCategory, props.currentMaterial, lo, hi));
      !QueryParams.Has(url, "category")
      && (QueryParams.Has(url, "material") <==> ProductFilters.Kept(q.material))
  {
    var props := FilterPropsFor(q);
    ProductFilters.AllCategoriesKeepsOthers(
      ProductFilters.FilterContext(search, props.currentCategory, props.currentMaterial, lo, hi));
  }

  /** A bound written by a preset band's link: its decimal text, and the value of those
      digits as `parseFloat` and `parseInt` read them. */
  function BoundText(n: nat): PriceText {
    var text := NatToString(n);
    PriceText(text, Num(DigitsValue(text) as real), Num(DigitsValue(text) as real))
  }

  /** What the catalog reads from a preset band's link: the category, material and search
      term the link carries, and the band's two bounds. */
  function PriceBandQuery(c: ProductFilters.FilterContext, band: ProductFilters.PriceBand): (q: SearchParams)
    ensures var url := ProductFilters.PriceBandLink(c, band);
      && q.category == QueryParams.Get(url, "category")
      && q.material == QueryParams.Get(url, "material")
      && q.search == QueryParams.Get(url, "search")
      && q.minPrice.Some? && QueryParams.Get(url, "minPrice") == Some(q.minPrice.value.text)
      && q.maxPrice.Some? && QueryParams.Get(url, "maxPrice") == Some(q.maxPrice.value.text)
      && Given(q.minPrice) && Given(q.maxPrice)
      && q.minPrice.value.asFloat == Num(band.min as real)
      && q.maxPrice.value.asFloat == Num(band.max as real)
      && q.sortBy == None
  {
    ProductFilters.PriceBandLinkBounds(c, band);
    NatToStringRoundTrip(band.min);
    NatToStringRoundTrip(band.max);
    var url := ProductFilters.PriceBandLink(c, band);
    SearchParams(QueryParams.Get(url, "category"), QueryParams.Get(url, "material"),
                 QueryParams.Get(url, "search"), Some(BoundText(band.min)), Some(BoundText(band.max)), None)
  }

  /** Both bounds of the catalog's price filter are inclusive, so neighbouring preset bands
      overlap at their shared edge: for the where clauses built from the two bands' links
      (`wLo` and `wHi`, as `BuildWhere` makes them), a product priced at that edge is listed
      by both or by neither, and the price never excludes it, only the other filters do. */
  lemma {:induction false} BoundaryPriceInBothBands(
    c: ProductFilters.FilterContext, i: nat, p: Product, wLo: Where, wHi: Where)
    requires i < 4
    requires p.price == ProductFilters.PriceBands[i].max as real
    requires forall x :: Selects(wLo, x) <==> Wanted(PriceBandQuery(c, ProductFilters.PriceBands[i]), x)
    requires forall x :: Selects(wHi, x) <==> Wanted(PriceBandQuery(c, ProductFilters.PriceBands[i + 1]), x)
    ensures Selects(wLo, p) <==> Selects(wHi, p)
    ensures Selects(wLo, p) <==>
      Wanted(PriceBandQuery(c, ProductFilters.PriceBands[i]).(minPrice := None, maxPrice := None), p)
  {
    ProductFilters.PriceBandsTileSlider();
    SharedEdgeInBoth(c, ProductFilters.PriceBands[i], ProductFilters.PriceBands[i + 1], p, wLo, wHi);
  }

  /** The same for any two bands where the first ends at the start of the second. */
  lemma {:induction false} SharedEdgeInBoth(
    c: ProductFilters.FilterContext, lo: ProductFilters.PriceBand, hi: ProductFilters.PriceBand,
    p: Product, wLo: Where, wHi: Where)
    requires lo.min <= lo.max == hi.min <= hi.max
    requires p.price == lo.max as real
    requires forall x :: Selects(wLo, x) <==> Wanted(PriceBandQuery(c, lo), x)
    requires forall x :: Selects(wHi, x) <==> Wanted(PriceBandQuery(c, hi), x)
    ensures Selects(wLo, p) <==> Selects(wHi, p)
    ensures Selects(wLo, p) <==> Wanted(PriceBandQuery(c, lo).(minPrice := None, maxPrice := None), p)
  {
    var qLo, qHi := PriceBandQuery(c, lo), PriceBandQuery(c, hi);
    ProductFilters.PriceBandLinkBounds(c, lo);
    ProductFilters.PriceBandLinkBounds(c, hi);
    assert qLo.(minPrice := None, maxPrice := None) == qHi.(minPrice := None, maxPrice := None);
  }
}
