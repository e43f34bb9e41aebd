/** The catalog's sort menu: its five options, the option shown as selected, and the URL a
    new choice navigates to. */
module ProductSort {
  import opened Wrappers
  import opened Text
  import opened QueryParams

  datatype SortOption = SortOption(value: string, caption: string)

  const SortOptions: seq<SortOption> := [
    SortOption("newest", "Newest First"),
    SortOption("price-low", "Price: Low to High"),
    SortOption("price-high", "Price: High to Low"),
    SortOption("name", "Name: A to Z"),
    SortOption("rating", "Highest Rated")
  ]

  /** The option values are pairwise distinct. */
  lemma SortOptionValuesDistinct()
    ensures forall i, j :: 0 <= i < j < |SortOptions| ==> SortOptions[i].value != SortOptions[j].value
  {
  }

  /** `currentSort || 'newest'`: the sort in the URL, or "newest" when there is none. */
  function SelectedSort(currentSort: Option<string>): (v: string)
    ensures v != ""
    ensures Truthy(currentSort) ==> v == currentSort.value
    ensures !Truthy(currentSort) ==> v == SortOptions[0].value
  {
    if Truthy(currentSort) then currentSort.value else "newest"
  }

  /** `handleSortChange(value)`: a copy of the current query with `sortBy` set to the new
      value. Afterwards `sortBy` occurs once, holding the value, and every other parameter
      is unchanged, in its original order. */
  function HandleSortChange(current: Params, value: string): (next: Params)
    ensures Get(next, "sortBy") == Some(value) && Count(next, "sortBy") == 1
    ensures Without(next, "sortBy") == Without(current, "sortBy")
    ensures forall k :: k != "sortBy" ==> Get(next, k) == Get(current, k)
  {
    Set(current, "sortBy", value)
  }

  /** Choosing a sort twice is the same as choosing only the second. */
  lemma SecondSortChoiceWins(current: Params, first: string, second: string)
    ensures HandleSortChange(HandleSortChange(current, first), second) == HandleSortChange(current, second)
  {
    SetOverrides(current, "sortBy", first, second);
  }
}
