# Dearest storefront — a Dafny model of its domain logic

Dearest is a single-page lingerie and loungewear storefront written in React. Its business
rules live inside the components. This project restates those rules in Dafny and proves
properties of them:

- the catalog search and filter;
- the cart ledger (add, change quantity, remove, item count and total);
- the wishlist;
- reviews and the average rating;
- the coupon engine in the cart drawer;
- the small state machines of the product card, the navigation bar, the phone/OTP login,
  the checkout gate, the admin's upload dialog and the AI stylist chat.

Module layout, one module per source file or concept:

| module | file | models |
|---|---|---|
| `Types` | `types.dfy` | the entities of `types.ts` as datatypes |
| `Text` | `text.dfy` | ASCII case mapping, `includes`, `trim`, `join`, decimal digits |
| `Seqs` | `seqs.dfy` | order-preserving `filter`, `find` by a string key, `indexOf`, first-occurrence de-duplication |
| `Constants` | `constants.dfy` | the seed catalog and the coupon table |
| `Cart` | `cart.dfy` | the cart ledger of `App.tsx` |
| `Catalog` | `catalog.dfy` | filter, categories, reviews and wishlist of `App.tsx` |
| `Storefront` | `storefront.dfy` | `App.tsx`'s state as class `StoreState`, one method per handler |
| `CartDrawer` | `cartdrawer.dfy` | subtotal, discount, total and class `CouponPanel` |
| `ProductDetails` | `productdetails.dfy` | average rating, badge and class `ReviewForm` |
| `ProductCard` | `productcard.dfy` | quantity stepper, add feedback, share link (class `Card`) |
| `Navbar` | `navbar.dfy` | active-filter count, field edits, cart badge, class `FilterPanel` |
| `AuthModal` | `authmodal.dfy` | the PHONE/OTP machine, class `LoginFlow` |
| `Checkout` | `checkout.dfy` | address selection, order gate, class `CheckoutForm` |
| `UploadModal` | `uploadmodal.dfy` | product built with defaults, class `UploadForm` |
| `AiStylist` | `aistylist.dfy` | the context sentence and class `ChatWidget` |

State that the components update in place is modelled by classes. Each method's `modifies`
clause names exactly the fields that the handler's setters replace. The pure list and
arithmetic transforms are functions. The properties are lemmas about those functions.

Prices and discounts are exact `real`s. Quantities are `int`s, which the cart invariant
keeps at 1 or more.

Three behaviours of the code are worth noting:

- **Unparsable price bounds.** A price bound that `parseFloat` cannot read is NaN, and every
  comparison with NaN is false. Such a bound therefore hides every product; it does not let
  everything through (`Catalog.UnparsableMinHidesAll`, `Catalog.UnparsableMaxHidesAll`).
- **Coupon case.** The coupon lookup upper-cases only the entered text. It is
  case-insensitive only because every code in the table is already upper case and the codes
  are distinct (`CartDrawer.LookUpIsCaseInsensitive`).
- **Empty minimum.** An empty minimum means 0, so a product with a negative price is hidden
  even when no filter is set (`Catalog.NegativePriceHidden`).

## Model

| member | source | states |
|---|---|---|
| `Text.Lower` | App.tsx:66-68 | `toLowerCase` keeps the length and maps each ASCII capital to its small letter, position by position |
| `Text.Upper` | components/CartDrawer.tsx:33 | `toUpperCase` keeps the length and maps each ASCII small letter to its capital, position by position |
| `Text.UpperMatchIsCaseInsensitive` | components/CartDrawer.tsx:33 | for an upper-case code, "the upper-cased input equals the code" holds exactly when input and code are equal up to case |
| `Text.ContainsInside` | App.tsx:67-68 | `includes`: `t` is found in any string of the form `a + t + b` |
| `Text.ContainsAt` | App.tsx:67-68 | whenever `includes` holds, there is a position at which the searched text starts |
| `Text.JoinContainsEach` | components/AiStylist.tsx:59 | each part of `parts.join(sep)` occurs in the joined string |
| `Text.NatToString` | components/AiStylist.tsx:53 | the decimal rendering of a count is a non-empty string of digits, with no leading zero for a positive count |
| `Text.NatToStringValue` | components/AiStylist.tsx:53 | the digits rendered for a count spell that count in base 10 |
| `Text.NatToStringInjective` | components/AiStylist.tsx:53 | different counts render as different strings |
| `Seqs.Filter` | App.tsx:64-79 | `filter` keeps only elements satisfying the predicate, keeps every element that does, in their original order (a subsequence); it is the identity when every element passes |
| `Seqs.FilterCounts` | App.tsx:64-79 | an element that passes occurs in the result as often as in the input, and one that fails never occurs |
| `Seqs.FilterKeepsDistinctKeys` | App.tsx:151-153 | filtering a list whose keys are distinct leaves the keys distinct |
| `Seqs.Find` | components/Checkout.tsx:38 | `find` by key: a result is an element with the key; none is returned exactly when no element has the key |
| `Seqs.FindIsFirst` | components/Checkout.tsx:38 | the element found is the first one with the key |
| `Seqs.FindUnique` | components/CartDrawer.tsx:33 | with distinct keys, `find` returns the one element with the key |
| `Seqs.FindAppended` | components/Checkout.tsx:38 | an element appended after all others is found by its key when no earlier element has it |
| `Seqs.IndexOf` | App.tsx:59-62 | the position returned holds the element, and no earlier position does |
| `Seqs.FilterConcat` | App.tsx:158 | filtering a concatenation is the concatenation of the filtered parts |
| `Seqs.Distinct` | App.tsx:59-62 | `Array.from(new Set(...))` has no duplicates, has the same members, and is the identity on a duplicate-free list |
| `Seqs.DistinctKeepsFirstOccurrenceOrder` | App.tsx:59-62 | the members of `Array.from(new Set(...))` come in the order of their first occurrence in the input |
| `Constants.CouponTableWellFormed` | constants.ts:6-9 | the table holds exactly DEAREST20 at 20 % and WELCOME10 at 10 %; codes are distinct and upper case; percentages lie in 0..100 |
| `Cart.IncreaseLine` | App.tsx:133-134 | the `map` branch: the length is kept, a line with the id grows by `quantity`, and every other line is unchanged |
| `Cart.AddToCart` | App.tsx:130-137 | an existing line for the product is increased; otherwise `{product, quantity}` is appended at the end |
| `Cart.AddToCartPreservesWellFormed` | App.tsx:130-137 | adding a quantity of 1 or more keeps one line per id and every quantity at least 1, and leaves a line for the product |
| `Cart.AddNewProductAddsOneLine` | App.tsx:136 | a product not yet in the cart adds exactly one line, at the end |
| `Cart.AddExistingProductKeepsLength` | App.tsx:133-134 | a product already in the cart keeps the length; its line's quantity grows by `quantity` and its product stays the same |
| `Cart.AddTwiceAddsQuantities` | App.tsx:130-137 | adding a new product twice yields one appended line carrying the sum of both quantities |
| `Cart.UpdateQuantity` | App.tsx:141-148 | the length and every product are kept; only lines with the id change; a new quantity of 0 or less leaves the line as it was |
| `Cart.UpdateQuantityPreservesWellFormed` | App.tsx:141-148 | the ledger invariant (unique ids, quantities of at least 1) survives every update |
| `Cart.DecrementNeverRemoves` | App.tsx:145 | decrementing a line by its whole quantity leaves the cart identical; it does not remove the line |
| `Cart.RemoveItem` | App.tsx:151-153 | no line with the id is left; the other lines stay, in order (a subsequence); an absent id changes nothing |
| `Cart.RemoveItemPreservesWellFormed` | App.tsx:151-153 | removing a line keeps the ledger invariant |
| `Cart.RemoveItemKeepsUniqueIds` | App.tsx:151-153 | removing lines from a cart with one line per id leaves one line per id |
| `Cart.ItemCountConcat` | App.tsx:55 | the item count of a concatenation is the sum of the item counts |
| `Cart.CartTotalConcat` | App.tsx:56 | the total of a concatenation is the sum of the totals |
| `Cart.ItemCountAtLeastLines` | App.tsx:55 | with quantities of at least 1, the item count is at least the number of lines |
| `Cart.CartTotalNonNegative` | App.tsx:56 | with positive quantities and non-negative prices the total is non-negative |
| `Cart.IncreaseAbsentLine` | App.tsx:134 | increasing an id that has no line changes nothing |
| `Cart.AddToCartItemCount` | App.tsx:130-137 | on a cart with unique ids, adding `quantity` raises the item count by exactly `quantity` |
| `Cart.IncreaseLineItemCount` | App.tsx:133-134 | increasing the single line of an id raises the item count by exactly that amount |
| `Cart.AddNewProductTotal` | App.tsx:136 | appending a new line raises the total by price times quantity |
| `Catalog.FilteredProducts` | App.tsx:64-79 | every product shown matches; every matching product is shown; the result is an order-preserving subsequence of the catalog |
| `Catalog.FilteredProductsCounts` | App.tsx:64-79 | a matching product is listed as many times as the catalog holds it, any other never |
| `Catalog.EmptySearchMatchesAll` | App.tsx:66-68 | an empty search term matches every product |
| `Catalog.NoFiltersShowsAll` | App.tsx:64-79 | with an empty search and empty filters, every product with a non-negative price is shown, in order |
| `Catalog.NegativePriceHidden` | App.tsx:74 | an empty minimum means 0, so a negative price is hidden even without filters |
| `Catalog.UnparsableMinHidesAll` | App.tsx:74-76 | a non-empty minimum that parses to NaN hides every product |
| `Catalog.UnparsableMaxHidesAll` | App.tsx:75-76 | a non-empty maximum that parses to NaN hides every product |
| `Catalog.LaceMatchesLaceBra` | App.tsx:66-68 | "lace" matches a product named "Lace Bra" (case-folded substring) |
| `Catalog.SilkMissesLaceBra` | App.tsx:66-68 | "silk" matches neither the name "Lace Bra" nor its category |
| `Catalog.SearchExample` | App.tsx:64-79 | the filtered one-product catalog is `[p]` for "lace" and empty for "silk" |
| `Catalog.NotContainsSilk` | App.tsx:67-68 | a string without a 'k' does not include "silk" |
| `Catalog.CategoryList` | App.tsx:60 | `products.map(p => p.category)`, position by position |
| `Catalog.Categories` | App.tsx:59-62 | each product category is listed once, and only categories of products are listed |
| `Catalog.CategoriesInFirstAppearanceOrder` | App.tsx:59-62 | of two listed categories, the earlier one first appears at an earlier product than the later one |
| `Catalog.AddReview` | App.tsx:174-179 | the review is prepended to each product with the id (an absent list read as empty); all other fields and products are unchanged |
| `Catalog.AddReviewUnknownId` | App.tsx:174-179 | reviewing an id that is not in the catalog leaves it unchanged |
| `Catalog.ToggleWishlist` | App.tsx:155-161 | the id's membership flips; every other id's membership stays |
| `Catalog.ToggleAbsentTwice` | App.tsx:155-161 | toggling an absent id twice returns the original list |
| `Storefront.InitialCatalogEmpty` | constants.ts:4 | the seed catalog is empty, so nothing is listed and no category is offered |
| `Storefront.StoreState.constructor` | App.tsx:18-52 | the initial state: home view, seed catalog, empty cart, no user, closed dialogs, saved wishlist, empty search and filters |
| `Storefront.StoreState.AddToCart` | App.tsx:130-138 | the cart becomes `Cart.AddToCart` of the old cart, keeps the ledger invariant and gains `quantity` items; the drawer opens |
| `Storefront.StoreState.UpdateQuantity` | App.tsx:141-148 | the cart becomes `Cart.UpdateQuantity` of the old cart and keeps the invariant |
| `Storefront.StoreState.RemoveItem` | App.tsx:151-153 | the cart loses the id's line and keeps the invariant |
| `Storefront.StoreState.ToggleWishlist` | App.tsx:155-161 | the wishlist becomes the toggled list; the id's membership flips |
| `Storefront.StoreState.AddProduct` | App.tsx:163-165 | the new product is put first in the catalog |
| `Storefront.StoreState.OpenProduct` | App.tsx:167-171 | the clicked product is selected and the details view shown |
| `Storefront.StoreState.AddReview` | App.tsx:173-189 | the catalog gets the review; the selected product gets it too when it has the id, and is otherwise unchanged |
| `Storefront.StoreState.Login` | App.tsx:191-206 | the user becomes the entered phone with the one default address |
| `Storefront.StoreState.Logout` | App.tsx:208-211 | no user, home view |
| `Storefront.StoreState.CheckoutStart` | App.tsx:213-220 | the drawer closes; without a user the login opens and the view stays; with one the checkout view shows |
| `Storefront.StoreState.CheckoutPage` | App.tsx:373-379 | the checkout page is rendered with the user and `totalAmount` equal to the cart's subtotal |
| `Storefront.CheckoutAmountIgnoresCoupon` | App.tsx:376 | the amount the checkout page shows is the drawer's total plus the drawer's discount, so strictly more than the drawer's total whenever a positive coupon applies to a positive subtotal |
| `Storefront.StoreState.AddAddress` | App.tsx:229-236 | a signed-in user's addresses gain the new one at the end; without a user nothing changes |
| `Storefront.StoreState.PlaceOrder` | App.tsx:238-242 | the cart is empty (count 0, total 0) and the success view shows |
| `Storefront.StoreState.SetSearchTerm` | App.tsx:253 | the search term is replaced |
| `Storefront.StoreState.SetFilters` | App.tsx:257 | the filter record is replaced |
| `Storefront.StoreState.ClearSearchAndFilters` | App.tsx:342-345 | the search term and all three filter fields become "" |
| `CartDrawer.FindUniqueCoupon` | components/CartDrawer.tsx:33 | with distinct codes, the table's `find` returns the one entry with the code |
| `CartDrawer.LookUpIsCaseInsensitive` | components/CartDrawer.tsx:33 | for a distinct, upper-case table, an entry is found exactly when the input equals its code up to case |
| `CartDrawer.LookUpDearest20` | components/CartDrawer.tsx:33 | the code DEAREST20 finds its table entry at 20 % |
| `CartDrawer.LowerAndUpperCodesAgree` | components/CartDrawer.tsx:33 | "dearest20" and "DEAREST20" both find DEAREST20 at 20 % |
| `CartDrawer.DiscountAmount` | components/CartDrawer.tsx:29 | no coupon gives 0; a coupon gives the amount whose hundredfold is subtotal times percentage |
| `CartDrawer.Total` | components/CartDrawer.tsx:30 | total plus discount is the subtotal |
| `CartDrawer.DiscountBounded` | components/CartDrawer.tsx:29-30 | for a non-negative subtotal and a percentage in 0..100, both discount and total lie between 0 and the subtotal |
| `CartDrawer.WorkedExample` | components/CartDrawer.tsx:28-30 | one line at 1000 × 2 has subtotal 2000; DEAREST20 takes 400 off, leaving 1600 |
| `CartDrawer.CheckoutTotalIgnoresCoupon` | components/CartDrawer.tsx:29-30 | a positive percentage on a positive subtotal leaves the total strictly below the subtotal |
| `CartDrawer.CouponPanel.ShownTotal` | components/CartDrawer.tsx:30 | the drawer's total plus its discount is the subtotal of its lines, and the total lies in 0..subtotal for a cart of non-negative prices |
| `CartDrawer.TableCouponBounded` | components/CartDrawer.tsx:28-30 | a coupon from the table never takes more than the subtotal of a cart with non-negative prices |
| `CartDrawer.CouponPanel.constructor` | components/CartDrawer.tsx:24-26 | the drawer starts with no code, no coupon and no error |
| `CartDrawer.CouponPanel.SetCouponCode` | components/CartDrawer.tsx:24 | the typed code replaces the field |
| `CartDrawer.CouponPanel.ApplyCoupon` | components/CartDrawer.tsx:32-41 | the applied coupon becomes the lookup's result, so at most one is active; a hit clears the error; a miss sets "Invalid coupon code"; the cart is not touched |
| `CartDrawer.CouponPanel.Discount` | components/CartDrawer.tsx:28-29 | the drawer's discount is 0 without a coupon and never exceeds the subtotal of its lines |
| `ProductDetails.AverageRating` | components/ProductDetails.tsx:19-21 | 0 for an absent or empty list; otherwise the average times the count is the sum of ratings |
| `ProductDetails.SumRatingsBounds` | components/ProductDetails.tsx:20 | with ratings in 1..5 the sum lies between the count and five times the count |
| `ProductDetails.AverageInStarRange` | components/ProductDetails.tsx:19-20 | a non-empty list of 1..5 ratings averages between 1 and 5 |
| `ProductDetails.BadgeIffReviewed` | components/ProductDetails.tsx:76 | with 1..5 ratings, the rating badge shows exactly when the product has a review |
| `ProductDetails.AverageExample` | components/ProductDetails.tsx:19-21 | ratings 5, 3 and 4 average 4; an empty or absent list gives 0 |
| `ProductDetails.ReviewerName` | components/ProductDetails.tsx:27 | the shown name is never empty, and is the entered name whenever one was entered |
| `ProductDetails.AddToBagAddsOne` | components/ProductDetails.tsx:95 | the page's "Add to Bag" adds exactly one piece and keeps the cart well formed |
| `ProductDetails.ReviewedProductShowsBadge` | components/ProductDetails.tsx:76 | a review from the form keeps ratings in 1..5, and the reviewed product then shows its badge |
| `ProductDetails.ReviewForm.constructor` | components/ProductDetails.tsx:14-16 | the form starts at 5 stars with an empty comment and name |
| `ProductDetails.ReviewForm.SelectStar` | components/ProductDetails.tsx:129-133 | a star button sets the rating to its value, so the rating stays in 1..5 |
| `ProductDetails.ReviewForm.SetComment` | components/ProductDetails.tsx:165 | the comment field is replaced |
| `ProductDetails.ReviewForm.SetName` | components/ProductDetails.tsx:153 | the name field is replaced |
| `ProductDetails.ReviewForm.Submit` | components/ProductDetails.tsx:23-36 | the review carries the given id and date, the shown name, the rating and the comment; the form resets to 5 stars and empty fields |
| `ProductCard.Increased` | components/ProductCard.tsx:28 | a step up increases the quantity |
| `ProductCard.Decreased` | components/ProductCard.tsx:33 | a step down never goes below 1 and never raises a quantity of at least 1 |
| `ProductCard.IncreaseThenDecrease` | components/ProductCard.tsx:28-33 | a step up then a step down restores any quantity of at least 1 |
| `ProductCard.DecreaseAtFloor` | components/ProductCard.tsx:33 | at the floor, a step down stays at 1 however often it is pressed |
| `ProductCard.DecreaseThenIncrease` | components/ProductCard.tsx:28-33 | above the floor, a step down then a step up restores the quantity |
| `ProductCard.ShareUrl` | components/ProductCard.tsx:64 | the link is the origin, then `?product=`, then the product id |
| `ProductCard.ShareUrlDeterminesId` | components/ProductCard.tsx:64 | two ids with the same link under one origin are equal |
| `ProductCard.Card.constructor` | components/ProductCard.tsx:21-24 | quantity 1, no feedback shown, share popup closed |
| `ProductCard.Card.Increase` | components/ProductCard.tsx:26-29 | the quantity steps up and stays at least 1 |
| `ProductCard.Card.Decrease` | components/ProductCard.tsx:31-34 | the quantity steps down, clamped at 1 |
| `ProductCard.Card.PressAdd` | components/ProductCard.tsx:36-47 | while the "added" feedback shows, the button is disabled (line 123) and does nothing; otherwise the current quantity goes to the cart, the feedback starts and the quantity resets to 1 |
| `ProductCard.Card.AddedFeedbackEnds` | components/ProductCard.tsx:44-46 | the timer ends the "added" feedback |
| `ProductCard.Card.ToggleShare` | components/ProductCard.tsx:56-59 | the share popup's flag flips, so two presses restore it |
| `ProductCard.Card.CopyLink` | components/ProductCard.tsx:61-66 | the copied URL is `ShareUrl` of the origin and id, and the "copied" feedback shows |
| `ProductCard.Card.CopiedFeedbackEnds` | components/ProductCard.tsx:67-70 | the timer ends the feedback and closes the popup |
| `Navbar.Flag` | components/Navbar.tsx:40 | a field counts 1 exactly when non-empty, else 0 |
| `Navbar.ActiveFilterCount` | components/Navbar.tsx:40 | the count lies in 0..3; 0 exactly when all three fields are empty, 3 exactly when all are set |
| `Navbar.NoActiveFiltersIsNoFilters` | components/Navbar.tsx:40 | a count of 0 is exactly the cleared filter record |
| `Navbar.EditMinPrice` | components/Navbar.tsx:141 | the minimum is replaced; maximum and category are kept |
| `Navbar.EditMaxPrice` | components/Navbar.tsx:148 | the maximum is replaced; minimum and category are kept |
| `Navbar.EditCategory` | components/Navbar.tsx:158 | the category is replaced; both bounds are kept |
| `Navbar.EditMovesCountByOne` | components/Navbar.tsx:40 | an edit changes the count only by the edited field's own contribution |
| `Navbar.EditTwiceKeepsLast` | components/Navbar.tsx:141-158 | two edits of one field keep only the second value |
| `Navbar.ClearAll` | components/Navbar.tsx:170 | Clear All leaves no active filter |
| `Navbar.ClearAllShowsAll` | components/Navbar.tsx:170 | after Clear All with an empty search, every product with a non-negative price shows |
| `Navbar.BadgeIffCartNonEmpty` | components/Navbar.tsx:189 | for a well-formed cart the badge shows exactly when the cart has a line |
| `Navbar.FilterPanel.constructor` | components/Navbar.tsx:38 | the popup starts closed |
| `Navbar.FilterPanel.Toggle` | components/Navbar.tsx:111 | the filter button flips the popup, so two presses restore it |
| `Navbar.FilterPanel.Close` | components/Navbar.tsx:127 | the close button shuts the popup |
| `AuthModal.SubmitOutcome` | components/AuthModal.tsx:18-38 | in PHONE, the code step is asked for exactly when the phone has 10 or more characters; in OTP, the result is a login with the phone or a rejection |
| `AuthModal.LoginOnlyWithDemoCode` | components/AuthModal.tsx:28-29 | a login happens exactly from OTP with the code "1234", and carries the entered phone |
| `AuthModal.PhoneLengthBoundary` | components/AuthModal.tsx:21 | nine characters are rejected; ten are taken |
| `AuthModal.LoginFlow.constructor` | components/AuthModal.tsx:12-14 | the dialog starts in PHONE with empty fields |
| `AuthModal.LoginFlow.SetPhone` | components/AuthModal.tsx:79 | the phone field is replaced; it is only on screen in PHONE |
| `AuthModal.LoginFlow.SetOtp` | components/AuthModal.tsx:95 | the code field is replaced; it is only on screen in OTP |
| `AuthModal.LoginFlow.Submit` | components/AuthModal.tsx:18-38 | the outcome is `SubmitOutcome`; an accepted phone moves to OTP; a login resets the dialog and carries a phone of at least 10 characters; a rejection changes no field |
| `AuthModal.LoginFlow.ChangeNumber` | components/AuthModal.tsx:111 | back to PHONE, the typed number kept |
| `Checkout.InitialSelection` | components/Checkout.tsx:15 | the first address's id when the user has a first address with a non-empty id; otherwise nothing is selected |
| `Checkout.OrderFor` | components/Checkout.tsx:33-42 | an order needs a selection and a user; it carries one of the user's addresses with the selected id and the chosen payment; with both present, nothing is placed exactly when no address matches |
| `Checkout.NoSelectionNoOrder` | components/Checkout.tsx:34-37 | without a selection or a user, no order goes out |
| `Checkout.OrderCarriesFirstMatch` | components/Checkout.tsx:38-40 | the order carries the first of the user's addresses with the selected id |
| `Checkout.SavedAddressIsOrdered` | components/Checkout.tsx:22-31 | a saved address with a fresh id, once appended by the app, is the one the order carries |
| `Checkout.WithField` | components/Checkout.tsx:78-84 | field by field: the edited field holds the typed value and the other four are kept |
| `Checkout.DraftAddress` | components/Checkout.tsx:24-27 | the saved address has the given id and the draft's five fields |
| `Checkout.FillingTheFormGivesTheAddress` | components/Checkout.tsx:20-27 | typing the five fields into the empty form saves exactly that address |
| `Checkout.CheckoutForm.constructor` | components/Checkout.tsx:14-20 | the initial selection, UPI, the form closed, an empty draft, and the `totalAmount` prop as given |
| `Checkout.CheckoutForm.SelectAddress` | components/Checkout.tsx:97 | clicking an address selects its id |
| `Checkout.CheckoutForm.SelectPayment` | components/Checkout.tsx:120-132 | each payment button sets exactly its method |
| `Checkout.CheckoutForm.StartAdding` | components/Checkout.tsx:68 | the new-address form opens |
| `Checkout.CheckoutForm.CancelAdding` | components/Checkout.tsx:87 | the form closes and the draft is kept |
| `Checkout.CheckoutForm.EditDraft` | components/Checkout.tsx:78-84 | the draft becomes `WithField` of the old draft |
| `Checkout.CheckoutForm.SaveAddress` | components/Checkout.tsx:22-31 | the address handed on is the draft under the given id; it becomes the selection; the form closes |
| `Checkout.CheckoutForm.PlaceOrder` | components/Checkout.tsx:33-42 | the order handed on is `OrderFor` the user, the selection and the payment |
| `Checkout.CheckoutForm.DisabledPlacesNothing` | components/Checkout.tsx:156 | while the button is disabled (no selection), no order can be placed |
| `UploadModal.OrDefault` | components/UploadModal.tsx:31-32 | one of the two strings; the text whenever it is non-empty; never empty when the fallback is not |
| `UploadModal.NewProduct` | components/UploadModal.tsx:27-35 | the given id and price, the name and description verbatim, "Uncategorized" for an empty category, the placeholder picture for an empty image, and an empty review list |
| `UploadModal.NewProductDefaults` | components/UploadModal.tsx:31-34 | an uploaded product always has a category and a picture, and starts unrated without a badge |
| `UploadModal.WithField` | components/UploadModal.tsx:81-148 | field by field: the edited field holds the typed value and the other four are kept |
| `UploadModal.FillingTheFormGivesTheProduct` | components/UploadModal.tsx:23-35 | after typing all five fields, submit is allowed exactly when a name and a price were typed, and the product carries the typed fields with the defaults filled in |
| `UploadModal.UploadForm.constructor` | components/UploadModal.tsx:13-19 | the form starts empty |
| `UploadModal.UploadForm.Edit` | components/UploadModal.tsx:81-148 | the form becomes `WithField` of the old form |
| `UploadModal.UploadForm.Submit` | components/UploadModal.tsx:23-47 | with a name and a price, `NewProduct` of the form is emitted and every field is reset; otherwise nothing is emitted and the form is kept |
| `AiStylist.DescriptionOrDefault` | components/AiStylist.tsx:51 | the description when non-empty, else a fixed non-empty phrase |
| `AiStylist.CartNames` | components/AiStylist.tsx:59 | `map(i => i.name)`, position by position |
| `AiStylist.BuildContext` | components/AiStylist.tsx:45-61 | the clause-by-clause `+=` builds exactly `Context`: the base, the view's clause, the cart's clause |
| `AiStylist.ContextStartsWithBase` | components/AiStylist.tsx:45 | whatever the view, the context opens with the base sentence |
| `AiStylist.ProductContextDescribesProduct` | components/AiStylist.tsx:47-51 | on a product page the context contains the product's name, category and price |
| `AiStylist.CheckoutContextCountsLines` | components/AiStylist.tsx:52-53 | at checkout the context contains the sentence "They are currently at the checkout page with N items in their cart.", N the decimal number of cart lines |
| `AiStylist.HomeContextSaysBrowsing` | components/AiStylist.tsx:54-55 | on the home page the context contains the browsing sentence |
| `AiStylist.ContextNamesCartItems` | components/AiStylist.tsx:58-61 | every cart line's product name occurs in the context |
| `AiStylist.SuccessPageEmptyCartContext` | components/AiStylist.tsx:45-61 | on the success page with an empty cart the context is the base sentence alone |
| `AiStylist.ChatWidget.constructor` | components/AiStylist.tsx:19-24 | the list holds the one AI greeting; input empty; not loading; closed |
| `AiStylist.ChatWidget.Open` | components/AiStylist.tsx:74 | the chat opens |
| `AiStylist.ChatWidget.Close` | components/AiStylist.tsx:91 | the chat closes |
| `AiStylist.ChatWidget.SetInput` | components/AiStylist.tsx:129 | the input is replaced |
| `AiStylist.ChatWidget.BeginSend` | components/AiStylist.tsx:35-63 | blank input or a pending reply changes nothing; otherwise the question is appended as a user message, the input clears, loading starts, and the request carries the question and `Context` |
| `AiStylist.ChatWidget.FinishSend` | components/AiStylist.tsx:63-67 | the reply is appended as an AI message and loading ends; the greeting stays first |
| `AiStylist.ChatWidget.HandleSend` | components/AiStylist.tsx:35-68 | a send that goes through grows the list by the user message and then the service's reply to that question and context, and ends loading |

## Left out

- Browser I/O is not modelled: local storage of the wishlist and the admin flag, `alert`,
  `prompt` and `confirm`, the admin password and search shortcut, the keydown listener,
  `scrollTo`, `scrollIntoView`, and `navigator.clipboard`. The wishlist loaded from storage
  is a constructor parameter. The alerts are the rejected outcomes of the methods that
  raise them.
- `Date.now()` ids and `toLocaleDateString` dates are parameters of the methods that use them.
- `parseFloat` is a parameter: `None` stands for NaN.
- `UploadModal.UploadForm.Submit`: the price it emits is the parsed value, passed as a
  parameter. A price field that parses to NaN (a product with a NaN price) is not modelled,
  because prices are exact reals.
- Floating-point rounding is not modelled. Prices, discounts and averages are exact reals,
  so amounts that JavaScript would round differ from the model at the last binary digit.
- JavaScript's conversion of a price to text is the parameter `show`.
- Case mapping covers ASCII letters only. `toLowerCase`/`toUpperCase` of other Unicode
  letters is not modelled.
- Lengths count Unicode scalar values, not UTF-16 code units.
- `services/gemini.ts`, the call to the hosted model and its fallback texts, is not part of
  this model. The stylist's answer is the function parameter `advice`, and the asynchronous
  send is split into `BeginSend` and `FinishSend`.
- JSX rendering, CSS, `isOpen` early returns, HTML `required` and `maxLength` attributes
  and the `type="number"` input restriction are not modelled.
- The timers that end the "added" and "copied" feedback are the methods
  `AddedFeedbackEnds` and `CopiedFeedbackEnds`, with no clock.
- `components/Logo.tsx` is markup only.
- `Storefront.StoreState.AddToCart` requires a quantity of at least 1. The handler itself
  does not check this; both of its callers guarantee it (the card's stepper, and 1 from the
  details page).
- `Storefront.StoreState.PlaceOrder` only logs `details`, so `details` is not part of the
  new state.
- `Storefront.StoreState.CheckoutPage` builds the page afresh. React keeps the page's own
  state across re-renders while `totalAmount` follows the cart; that re-rendering is not modelled.
- `Navbar.FilterPanel`: the icon's highlight (open or any filter set) is not modelled.
- The admin-only visibility of the upload button is not modelled: `isAdmin` comes from the
  password prompt, which is left out.
- The `useEffect` in App.tsx that reacts to a login has an empty body and is not modelled.
