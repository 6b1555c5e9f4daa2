/**
 * The catalog side of App.tsx: the search/filter predicate over products, the category
 * list for the filter drop-down, review prepending and the wishlist toggle.
 */
module Catalog {
  import opened Types
  import opened Text
  import Seqs

  // ---- filter ----

  /** A price bound after `parseFloat`: no bound at all, a number, or NaN (which fails every comparison). */
  datatype Bound = Unbounded | Limit(value: real) | NotANumber

  /** `parseFloat` is a parameter: `None` stands for NaN. */
  type Parser = string -> Option<real>

  function Parsed(parse: Parser, text: string): Bound {
    match parse(text)
    case None => NotANumber
    case Some(v) => Limit(v)
  }

  /** An empty minimum means 0. */
  function MinBound(f: FilterState, parse: Parser): Bound {
    if f.minPrice == "" then Limit(0.0) else Parsed(parse, f.minPrice)
  }

  /** An empty maximum means Infinity. */
  function MaxBound(f: FilterState, parse: Parser): Bound {
    if f.maxPrice == "" then Unbounded else Parsed(parse, f.maxPrice)
  }

  predicate AtLeast(price: real, b: Bound) {
    match b
    case Unbounded => true
    case Limit(v) => price >= v
    case NotANumber => false
  }

  predicate AtMost(price: real, b: Bound) {
    match b
    case Unbounded => true
    case Limit(v) => price <= v
    case NotANumber => false
  }

  /** The lower-cased term occurs in the lower-cased name or the lower-cased category. */
  predicate MatchesSearch(p: Product, searchTerm: string) {
    var term := Lower(searchTerm);
    Contains(Lower(p.name), term) || Contains(Lower(p.category), term)
  }

  predicate MatchesCategory(p: Product, f: FilterState) {
    f.category == "" || p.category == f.category
  }

  predicate MatchesPrice(p: Product, f: FilterState, parse: Parser) {
    AtLeast(p.price, MinBound(f, parse)) && AtMost(p.price, MaxBound(f, parse))
  }

  /** The predicate passed to `products.filter`. */
  predicate Matches(p: Product, searchTerm: string, f: FilterState, parse: Parser) {
    MatchesSearch(p, searchTerm) && MatchesCategory(p, f) && MatchesPrice(p, f, parse)
  }

  /** The callback handed to `products.filter`. */
  function Matcher(searchTerm: string, f: FilterState, parse: Parser): Product -> bool {
    (p: Product) => Matches(p, searchTerm, f, parse)
  }

  /** `filteredProducts`: exactly the matching products, in catalog order. */
  function FilteredProducts(products: seq<Product>, searchTerm: string, f: FilterState, parse: Parser): (r: seq<Product>)
    ensures forall i :: 0 <= i < |r| ==> Matches(r[i], searchTerm, f, parse)
    ensures forall p :: p in products && Matches(p, searchTerm, f, parse) ==> p in r
    ensures forall p :: p in r ==> p in products
    ensures Seqs.IsSubseq(r, products)
  {
    Seqs.Filter(products, Matcher(searchTerm, f, parse))
  }

  /** A matching product is listed as many times as the catalog holds it; any other, never. */
  lemma FilteredProductsCounts(products: seq<Product>, searchTerm: string, f: FilterState, parse: Parser, x: Product)
    ensures multiset(FilteredProducts(products, searchTerm, f, parse))[x]
            == if Matches(x, searchTerm, f, parse) then multiset(products)[x] else 0
  {
    Seqs.FilterCounts(products, Matcher(searchTerm, f, parse), x);
  }

  const NoFilters := FilterState("", "", "")

  /** An empty term matches every product. */
  lemma EmptySearchMatchesAll(p: Product)
    ensures MatchesSearch(p, "")
  {
    assert Lower("") == "";
    ContainsEmpty(Lower(p.name));
  }

  /** With no search term and no filters, every product of non-negative price is shown, in order. */
  lemma NoFiltersShowsAll(products: seq<Product>, parse: Parser)
    requires forall i :: 0 <= i < |products| ==> products[i].price >= 0.0
    ensures FilteredProducts(products, "", NoFilters, parse) == products
  {
    forall i | 0 <= i < |products| ensures Matches(products[i], "", NoFilters, parse) {
      EmptySearchMatchesAll(products[i]);
    }
  }

  /** An empty minimum is 0, not "unbounded": a product of negative price is hidden even with no filters set. */
  lemma NegativePriceHidden(p: Product, parse: Parser)
    requires p.price < 0.0
    ensures FilteredProducts([p], "", NoFilters, parse) == []
  {
  }

  /** A bound that does not parse is NaN, and NaN comparisons are false: every product is filtered out. */
  lemma UnparsableMinHidesAll(products: seq<Product>, searchTerm: string, f: FilterState, parse: Parser)
    requires f.minPrice != "" && parse(f.minPrice).None?
    ensures FilteredProducts(products, searchTerm, f, parse) == []
  {
  }

  lemma UnparsableMaxHidesAll(products: seq<Product>, searchTerm: string, f: FilterState, parse: Parser)
    requires f.maxPrice != "" && parse(f.maxPrice).None?
    ensures FilteredProducts(products, searchTerm, f, parse) == []
  {
  }

  /** The sample product of the search scenario: "Lace Bra" in "Bras" at 1200. */
  predicate IsLaceBra(p: Product) {
    p.name == "Lace Bra" && p.category == "Bras" && p.price == 1200.0
  }

  /** Lower-casing `s` gives `t` when it does so character by character. */
  lemma LowerIs(s: string, t: string)
    requires |s| == |t| && forall i :: 0 <= i < |s| ==> LowerChar(s[i]) == t[i]
    ensures Lower(s) == t
  {
  }

  lemma LaceMatchesLaceBra(p: Product)
    requires IsLaceBra(p)
    ensures MatchesSearch(p, "lace")
  {
    LowerIs("lace", "lace");
    LowerIs("Lace Bra", "lace bra");
    assert StartsWith("lace bra", "lace");
  }

  lemma SilkMissesLaceBra(p: Product)
    requires IsLaceBra(p)
    ensures !MatchesSearch(p, "silk")
  {
    LowerIs("silk", "silk");
    NoKAfterLower(p.name);
    NoKAfterLower(p.category);
    NotContainsSilk(Lower(p.name));
    NotContainsSilk(Lower(p.category));
  }

  /** Lower-casing a string with neither 'k' nor 'K' yields no 'k'. */
  lemma NoKAfterLower(s: string)
    requires forall i :: 0 <= i < |s| ==> s[i] != 'k' && s[i] != 'K'
    ensures forall i :: 0 <= i < |Lower(s)| ==> Lower(s)[i] != 'k'
  {
  }

  /** The search is case-insensitive: "lace" finds "Lace Bra" in "Bras", "silk" finds nothing. */
  lemma SearchExample(p: Product, parse: Parser)
    requires IsLaceBra(p)
    ensures FilteredProducts([p], "lace", NoFilters, parse) == [p]
    ensures FilteredProducts([p], "silk", NoFilters, parse) == []
  {
    LaceMatchesLaceBra(p);
    SilkMissesLaceBra(p);
    var hit := FilteredProducts([p], "lace", NoFilters, parse);
    assert p in hit;
  }

  /** A string without the letter 'k' does not contain "silk". */
  lemma {:induction false} NotContainsSilk(s: string)
    requires forall i :: 0 <= i < |s| ==> s[i] != 'k'
    ensures !Contains(s, "silk")
    decreases |s|
  {
    if |s| >= 4 {
      assert s[3] != "silk"[3];
      assert s[..4] != "silk";
    }
    if s != [] {
      NotContainsSilk(s[1..]);
    }
  }

  // ---- categories ----

  function CategoryList(products: seq<Product>): (cats: seq<string>)
    ensures |cats| == |products|
    ensures forall i :: 0 <= i < |products| ==> cats[i] == products[i].category
  {
    seq(|products|, i requires 0 <= i < |products| => products[i].category)
  }

  /** `categories`: each product category once, in order of first appearance. */
  function Categories(products: seq<Product>): (cats: seq<string>)
    ensures Seqs.NoDuplicates(cats)
    ensures forall i :: 0 <= i < |products| ==> products[i].category in cats
    ensures forall c :: c in cats ==> exists i :: 0 <= i < |products| && products[i].category == c
  {
    Seqs.Distinct(CategoryList(products))
  }

  /**
   * The categories come in the order in which they first appear in the catalog: of two listed
   * categories, the earlier one belongs to an earlier product than any product of the later one.
   */
  lemma CategoriesInFirstAppearanceOrder(products: seq<Product>, i: nat, j: nat)
    requires i < j < |Categories(products)|
    ensures Seqs.IndexOf(CategoryList(products), Categories(products)[i])
            < Seqs.IndexOf(CategoryList(products), Categories(products)[j])
  {
    Seqs.DistinctKeepsFirstOccurrenceOrder(CategoryList(products), i, j);
  }

  // ---- reviews ----

  /** The product with a new review in front of its (possibly absent) list. */
  function WithReview(p: Product, review: Review): Product {
    p.(reviews := Some([review] + ReviewsOf(p)))
  }

  /** `handleAddReview` on the product list: prepend `review` to the product(s) with `productId`. */
  function AddReview(products: seq<Product>, productId: string, review: Review): (r: seq<Product>)
    ensures |r| == |products|
    ensures forall i :: 0 <= i < |products| && products[i].id == productId ==>
              r[i] == products[i].(reviews := r[i].reviews)
              && ReviewsOf(r[i]) == [review] + ReviewsOf(products[i])
    ensures forall i :: 0 <= i < |products| && products[i].id != productId ==> r[i] == products[i]
    decreases |products|
  {
    if products == [] then []
    else
      [if products[0].id == productId then WithReview(products[0], review) else products[0]]
      + AddReview(products[1..], productId, review)
  }

  /** Reviewing a product that is not listed leaves the catalog unchanged. */
  lemma AddReviewUnknownId(products: seq<Product>, productId: string, review: Review)
    requires forall i :: 0 <= i < |products| ==> products[i].id != productId
    ensures AddReview(products, productId, review) == products
  {
  }

  // ---- wishlist ----

  /** `handleToggleWishlist`: remove every copy of the id if present, otherwise append it. */
  function ToggleWishlist(wishlist: seq<string>, productId: string): (r: seq<string>)
    ensures productId in r <==> productId !in wishlist
    ensures forall id :: id != productId ==> (id in r <==> id in wishlist)
  {
    if productId in wishlist then Seqs.Filter(wishlist, (id: string) => id != productId)
    else wishlist + [productId]
  }

  /** Toggling an id that is absent twice returns the original list. */
  lemma ToggleAbsentTwice(wishlist: seq<string>, productId: string)
    requires productId !in wishlist
    ensures ToggleWishlist(ToggleWishlist(wishlist, productId), productId) == wishlist
  {
    var keep := (id: string) => id != productId;
    Seqs.FilterConcat(wishlist, [productId], keep);
    assert Seqs.Filter([productId], keep) == [];
  }
}
