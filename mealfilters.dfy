/** The meal filter bar of src/modules/meals/MealFilters.tsx. The filter record lives
    in the parent; every handler here hands it a new record built by spread. */
module MealFilters {
  import opened Types

  datatype Filters = Filters(search: string, category: string, minPrice: string, maxPrice: string, sortBy: string)

  /** Which end of the price range a price input writes. */
  datatype Bound = Min | Max

  /** `handleSearchChange`. */
  function SearchChange(f: Filters, value: string): (r: Filters)
    ensures r.search == value
    ensures r.category == f.category && r.minPrice == f.minPrice && r.maxPrice == f.maxPrice && r.sortBy == f.sortBy
  {
    f.(search := value)
  }

  /** `handleCategoryChange`; the category badge's close button calls it with "All". */
  function CategoryChange(f: Filters, categoryName: string): (r: Filters)
    ensures r.category == categoryName
    ensures r.search == f.search && r.minPrice == f.minPrice && r.maxPrice == f.maxPrice && r.sortBy == f.sortBy
  {
    f.(category := categoryName)
  }

  /** `handlePriceChange`: 'min' writes minPrice, 'max' writes maxPrice. */
  function PriceChange(f: Filters, bound: Bound, value: string): (r: Filters)
    ensures bound == Min ==> r.minPrice == value && r.maxPrice == f.maxPrice
    ensures bound == Max ==> r.maxPrice == value && r.minPrice == f.minPrice
    ensures r.search == f.search && r.category == f.category && r.sortBy == f.sortBy
  {
    match bound
    case Min => f.(minPrice := value)
    case Max => f.(maxPrice := value)
  }

  /** The sort select. */
  function SortChange(f: Filters, value: string): (r: Filters)
    ensures r.sortBy == value
    ensures r.search == f.search && r.category == f.category && r.minPrice == f.minPrice && r.maxPrice == f.maxPrice
  {
    f.(sortBy := value)
  }

  /** `clearFilters`. */
  function ClearFilters(): (r: Filters)
    ensures r.search == "" && r.category == "All" && r.minPrice == "" && r.maxPrice == ""
    ensures r.sortBy == "featured"
  {
    Filters("", "All", "", "", "featured")
  }

  /** The close button of the price badge. */
  function ClearPriceBadge(f: Filters): (r: Filters)
    ensures r.minPrice == "" && r.maxPrice == ""
    ensures r.search == f.search && r.category == f.category && r.sortBy == f.sortBy
  {
    f.(minPrice := "", maxPrice := "")
  }

  /** `hasActiveFilters`, read as a boolean. */
  function HasActiveFilters(f: Filters): (active: bool)
    ensures !active <==> f.(sortBy := "featured") == ClearFilters()
  {
    f.category != "All" || f.search != "" || f.minPrice != "" || f.maxPrice != ""
  }

  /** The sort order never makes the filters active or inactive. */
  lemma SortDoesNotActivate(f: Filters, value: string)
    ensures HasActiveFilters(SortChange(f, value)) <==> HasActiveFilters(f)
  {
  }

  /** Nothing is active right after clearing, and only the defaults are inactive up to the sort. */
  lemma ClearedIsInactive(f: Filters)
    ensures !HasActiveFilters(ClearFilters())
    ensures !HasActiveFilters(f) <==> f.(sortBy := "featured") == ClearFilters()
  {
  }

  /** The price badge undoes any price input; the three badge and input clears together
      reach `clearFilters` except for the sort order, which they keep. */
  lemma BadgeClears(f: Filters, bound: Bound, value: string)
    ensures ClearPriceBadge(PriceChange(f, bound, value)) == ClearPriceBadge(f)
    ensures CategoryChange(ClearPriceBadge(SearchChange(f, "")), "All") == ClearFilters().(sortBy := f.sortBy)
    ensures !HasActiveFilters(CategoryChange(ClearPriceBadge(SearchChange(f, "")), "All"))
  {
  }

  // ------------------------------------------------------------ categories

  datatype Category = Category(id: string, name: string)

  const AllCategory: Category := Category("all", "All")

  /** The list before the fetch completes. */
  const InitialCategories: seq<Category> := [AllCategory]

  /** What the categories endpoint gave: a throw (network or JSON), or a body whose
      `data` may be missing. */
  datatype CategoryResponse = Threw | Body(success: bool, data: Option<seq<Category>>)

  /** `loadCategories`: a successful body replaces the list by "All" followed by the
      fetched categories; spreading a missing `data` throws and is caught, like any other
      failure, leaving the list as it was. */
  function LoadCategories(current: seq<Category>, r: CategoryResponse): (next: seq<Category>)
    ensures r.Body? && r.success && r.data.Some? ==> next == [AllCategory] + r.data.value
    ensures !(r.Body? && r.success && r.data.Some?) ==> next == current
  {
    if r.Body? && r.success && r.data.Some? then [AllCategory] + r.data.value else current
  }

  /** "All" is the first entry of the initial list and stays first across a load, with
      the fetched categories after it in their order. */
  lemma AllComesFirst(current: seq<Category>, r: CategoryResponse)
    requires |current| >= 1 && current[0] == AllCategory
    ensures InitialCategories[0] == AllCategory
    ensures var next := LoadCategories(current, r);
      |next| >= 1 && next[0] == AllCategory
      && (r.Body? && r.success && r.data.Some? ==> next[1..] == r.data.value)
  {
  }
}
