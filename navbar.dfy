/**
 * The navigation bar (components/Navbar.tsx): the active-filter count, the per-field filter
 * edits and Clear All, the filter popup's open flag and the cart badge.
 */
module Navbar {
  import opened Types
  import Cart
  import Catalog

  function Flag(s: string): (n: int)
    ensures n == 0 || n == 1
    ensures n == 1 <==> s != ""
  {
    if s != "" then 1 else 0
  }

  /** `activeFilterCount`: how many of category, min and max are set (a non-empty string is truthy). */
  function ActiveFilterCount(f: FilterState): (c: int)
    ensures 0 <= c <= 3
    ensures c == 0 <==> f.category == "" && f.minPrice == "" && f.maxPrice == ""
    ensures c == 3 <==> f.category != "" && f.minPrice != "" && f.maxPrice != ""
  {
    Flag(f.category) + Flag(f.minPrice) + Flag(f.maxPrice)
  }

  /** No active filter means exactly the cleared state the catalog treats as "no filters". */
  lemma NoActiveFiltersIsNoFilters(f: FilterState)
    ensures ActiveFilterCount(f) == 0 <==> f == Catalog.NoFilters
  {
  }

  /** The Min input's change handler. */
  function EditMinPrice(f: FilterState, text: string): (r: FilterState)
    ensures r.minPrice == text && r.maxPrice == f.maxPrice && r.category == f.category
  {
    f.(minPrice := text)
  }

  /** The Max input's change handler. */
  function EditMaxPrice(f: FilterState, text: string): (r: FilterState)
    ensures r.maxPrice == text && r.minPrice == f.minPrice && r.category == f.category
  {
    f.(maxPrice := text)
  }

  /** The category selector's change handler. */
  function EditCategory(f: FilterState, category: string): (r: FilterState)
    ensures r.category == category && r.minPrice == f.minPrice && r.maxPrice == f.maxPrice
  {
    f.(category := category)
  }

  /** Editing one field moves the count by at most one, in the direction of that field. */
  lemma EditMovesCountByOne(f: FilterState, text: string)
    ensures ActiveFilterCount(EditMinPrice(f, text)) == ActiveFilterCount(f) - Flag(f.minPrice) + Flag(text)
    ensures ActiveFilterCount(EditMaxPrice(f, text)) == ActiveFilterCount(f) - Flag(f.maxPrice) + Flag(text)
    ensures ActiveFilterCount(EditCategory(f, text)) == ActiveFilterCount(f) - Flag(f.category) + Flag(text)
  {
  }

  /** Editing a field twice keeps only the second value. */
  lemma EditTwiceKeepsLast(f: FilterState, a: string, b: string)
    ensures EditMinPrice(EditMinPrice(f, a), b) == EditMinPrice(f, b)
    ensures EditMaxPrice(EditMaxPrice(f, a), b) == EditMaxPrice(f, b)
    ensures EditCategory(EditCategory(f, a), b) == EditCategory(f, b)
  {
  }

  /** Clear All: every field back to "". */
  function ClearAll(): (r: FilterState)
    ensures ActiveFilterCount(r) == 0
  {
    FilterState("", "", "")
  }

  /** After Clear All (and with an empty search), every product with a non-negative price shows again. */
  lemma ClearAllShowsAll(products: seq<Product>, parse: Catalog.Parser)
    requires forall i :: 0 <= i < |products| ==> products[i].price >= 0.0
    ensures Catalog.FilteredProducts(products, "", ClearAll(), parse) == products
  {
    Catalog.NoFiltersShowsAll(products, parse);
  }

  /** Whether the cart icon carries a count badge. */
  predicate ShowCartBadge(cartCount: int) {
    cartCount > 0
  }

  /** For a well-formed cart the badge shows exactly when the cart has a line. */
  lemma BadgeIffCartNonEmpty(cart: seq<CartItem>)
    requires Cart.WellFormed(cart)
    ensures ShowCartBadge(Cart.ItemCount(cart)) <==> cart != []
  {
    Cart.ItemCountAtLeastLines(cart);
  }

  /** The filter popup's visibility. */
  class FilterPanel {
    var isFilterOpen: bool

    constructor ()
      ensures !isFilterOpen
    {
      isFilterOpen := false;
    }

    /** The filter button. */
    method Toggle()
      modifies this`isFilterOpen
      ensures isFilterOpen == !old(isFilterOpen)
    {
      isFilterOpen := !isFilterOpen;
    }

    /** The popup's close button. */
    method Close()
      modifies this`isFilterOpen
      ensures !isFilterOpen
    {
      isFilterOpen := false;
    }

  }
}
