/**
 * The application state of App.tsx and its handlers. Each handler replaces some of the
 * state fields through the pure list functions of Cart and Catalog; the `modifies`
 * frame of each method names the fields its setters touch, so every other field is
 * unchanged.
 */
module Storefront {
  import opened Types
  import Cart
  import Catalog
  import Constants
  import CartDrawer
  import Checkout

  /** The single saved address of the mock account `handleLogin` creates. */
  const DefaultAddress := Address("1", "Dearest Fan", "123 Fashion Ave", "Mumbai", "400001", "Maharashtra")

  /** The seed catalog is empty, so the first screen lists no product and offers no category. */
  lemma InitialCatalogEmpty(parse: Catalog.Parser)
    ensures Catalog.FilteredProducts(Constants.Products, "", Catalog.NoFilters, parse) == []
    ensures Catalog.Categories(Constants.Products) == []
  {
    assert Constants.Products == [];
  }

  class StoreState {
    var view: ViewState
    var products: seq<Product>
    var selectedProduct: Option<Product>
    var cart: seq<CartItem>
    var isCartOpen: bool
    var user: Option<User>
    var isAuthOpen: bool
    var isUploadOpen: bool
    var wishlist: seq<string>
    var searchTerm: string
    var filters: FilterState

    /** The ledger invariant: one line per product id, every quantity at least 1. */
    predicate Valid()
      reads this
    {
      Cart.WellFormed(cart)
    }

    /** The initial state; `savedWishlist` is what local storage held. */
    constructor (savedWishlist: seq<string>)
      ensures Valid()
      ensures view == HOME && products == Constants.Products && selectedProduct == None && cart == []
      ensures !isCartOpen && user == None && !isAuthOpen && !isUploadOpen
      ensures wishlist == savedWishlist && searchTerm == "" && filters == Catalog.NoFilters
    {
      view := HOME;
      products := Constants.Products;
      selectedProduct := None;
      cart := [];
      isCartOpen := false;
      user := None;
      isAuthOpen := false;
      isUploadOpen := false;
      wishlist := savedWishlist;
      searchTerm := "";
      filters := Catalog.NoFilters;
    }

    /** `handleAddToCart`; every caller passes a quantity of at least 1 (the card's stepper, or 1 from the details page). */
    method AddToCart(product: Product, quantity: int)
      requires Valid() && quantity >= 1
      modifies this`cart, this`isCartOpen
      ensures Valid()
      ensures cart == Cart.AddToCart(old(cart), product, quantity)
      ensures Cart.ItemCount(cart) == Cart.ItemCount(old(cart)) + quantity
      ensures isCartOpen
    {
      Cart.AddToCartPreservesWellFormed(cart, product, quantity);
      Cart.AddToCartItemCount(cart, product, quantity);
      cart := Cart.AddToCart(cart, product, quantity);
      isCartOpen := true;
    }

    method UpdateQuantity(id: string, delta: int)
      requires Valid()
      modifies this`cart
      ensures Valid()
      ensures cart == Cart.UpdateQuantity(old(cart), id, delta)
    {
      Cart.UpdateQuantityPreservesWellFormed(cart, id, delta);
      cart := Cart.UpdateQuantity(cart, id, delta);
    }

    method RemoveItem(id: string)
      requires Valid()
      modifies this`cart
      ensures Valid()
      ensures cart == Cart.RemoveItem(old(cart), id)
      ensures !Cart.HasLine(cart, id)
    {
      Cart.RemoveItemPreservesWellFormed(cart, id);
      cart := Cart.RemoveItem(cart, id);
    }

    method ToggleWishlist(productId: string)
      modifies this`wishlist
      ensures wishlist == Catalog.ToggleWishlist(old(wishlist), productId)
      ensures productId in wishlist <==> productId !in old(wishlist)
    {
      wishlist := Catalog.ToggleWishlist(wishlist, productId);
    }

    /** `handleAddProduct`: the new product goes in front. */
    method AddProduct(newProduct: Product)
      modifies this`products
      ensures products == [newProduct] + old(products)
    {
      products := [newProduct] + products;
    }

    /** `handleProductClick`. */
    method OpenProduct(product: Product)
      modifies this`selectedProduct, this`view
      ensures selectedProduct == Some(product) && view == PRODUCT_DETAILS
    {
      selectedProduct := Some(product);
      view := PRODUCT_DETAILS;
    }

    /** `handleAddReview`: the catalog and, when it is the one on display, the selected product get the review in front. */
    method AddReview(productId: string, review: Review)
      modifies this`products, this`selectedProduct
      ensures products == Catalog.AddReview(old(products), productId, review)
      ensures old(selectedProduct).Some? && old(selectedProduct).value.id == productId ==>
                selectedProduct == Some(Catalog.WithReview(old(selectedProduct).value, review))
      ensures !(old(selectedProduct).Some? && old(selectedProduct).value.id == productId) ==>
                selectedProduct == old(selectedProduct)
    {
      products := Catalog.AddReview(products, productId, review);
      if selectedProduct.Some? && selectedProduct.value.id == productId {
        selectedProduct := Some(Catalog.WithReview(selectedProduct.value, review));
      }
    }

    /** `handleLogin`: a mock account with one saved address. */
    method Login(phoneNumber: string)
      modifies this`user
      ensures user == Some(User(phoneNumber, [DefaultAddress]))
    {
      user := Some(User(phoneNumber, [DefaultAddress]));
    }

    method Logout()
      modifies this`user, this`view
      ensures user == None && view == HOME
    {
      user := None;
      view := HOME;
    }

    /** `handleCheckoutStart`: close the drawer, then ask for a login or go to checkout. */
    method CheckoutStart()
      modifies this`isCartOpen, this`isAuthOpen, this`view
      ensures !isCartOpen
      ensures user.None? ==> isAuthOpen && view == old(view)
      ensures user.Some? ==> view == CHECKOUT && isAuthOpen == old(isAuthOpen)
    {
      isCartOpen := false;
      if user.None? {
        isAuthOpen := true;
      } else {
        view := CHECKOUT;
      }
    }

    /** The checkout page App renders in the CHECKOUT view: the user and `totalAmount={cartTotal}`. */
    method CheckoutPage() returns (page: Checkout.CheckoutForm)
      requires view == CHECKOUT
      ensures fresh(page)
      ensures page.totalAmount == Cart.CartTotal(cart)
      ensures page.selectedAddressId == Checkout.InitialSelection(user)
      ensures page.paymentMethod == UPI && !page.isAddingAddress && page.newAddr == Checkout.EmptyDraft
    {
      page := new Checkout.CheckoutForm(user, Cart.CartTotal(cart));
    }

    /** `handleAddAddress`: append to the logged-in user's addresses; no user, no change. */
    method AddAddress(address: Address)
      modifies this`user
      ensures old(user).Some? ==> user == Some(old(user).value.(addresses := old(user).value.addresses + [address]))
      ensures old(user).None? ==> user == None
    {
      if user.Some? {
        user := Some(user.value.(addresses := user.value.addresses + [address]));
      }
    }

    /** `handlePlaceOrder`: the cart is emptied and the success view shown; `details` is only logged. */
    method PlaceOrder(details: OrderDetails)
      modifies this`cart, this`view
      ensures Valid()
      ensures cart == [] && Cart.ItemCount(cart) == 0 && Cart.CartTotal(cart) == 0.0
      ensures view == SUCCESS
    {
      cart := [];
      view := SUCCESS;
    }

    method SetSearchTerm(term: string)
      modifies this`searchTerm
      ensures searchTerm == term
    {
      searchTerm := term;
    }

    method SetFilters(f: FilterState)
      modifies this`filters
      ensures filters == f
    {
      filters := f;
    }

    /** "Clear all filters" under an empty result: search term and all three filter fields become "". */
    method ClearSearchAndFilters()
      modifies this`searchTerm, this`filters
      ensures searchTerm == "" && filters == Catalog.NoFilters
    {
      searchTerm := "";
      filters := Catalog.NoFilters;
    }
  }

  /**
   * The amount the checkout page shows is the cart's subtotal, not the drawer's total: it is
   * the drawer's total plus its discount, and strictly more whenever a positive coupon applies
   * to a positive subtotal.
   */
  lemma CheckoutAmountIgnoresCoupon(page: Checkout.CheckoutForm, panel: CartDrawer.CouponPanel, cart: seq<CartItem>)
    requires panel.Valid() && page.totalAmount == Cart.CartTotal(cart)
    ensures page.totalAmount == panel.ShownTotal(cart) + panel.Discount(cart)
    ensures Cart.CartTotal(cart) > 0.0 && panel.appliedCoupon.Some? && panel.appliedCoupon.value.discountPercentage > 0
            ==> page.totalAmount > panel.ShownTotal(cart)
  {
    if Cart.CartTotal(cart) > 0.0 && panel.appliedCoupon.Some? && panel.appliedCoupon.value.discountPercentage > 0 {
      CartDrawer.CheckoutTotalIgnoresCoupon(cart, panel.appliedCoupon.value);
    }
  }
}
