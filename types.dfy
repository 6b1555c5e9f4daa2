/** The storefront's entities (types.ts), as value datatypes. */
module Types {

  datatype Option<+T> = None | Some(value: T)

  /** A customer review. `rating` is documented as a star count from 1 to 5. */
  datatype Review = Review(id: string, userName: string, rating: int, comment: string, date: string)

  /** A catalog product. `reviews` is optional; every consumer treats an absent list as empty. */
  datatype Product = Product(
    id: string,
    name: string,
    price: real,
    category: string,
    image: string,
    description: string,
    reviews: Option<seq<Review>>)

  /** The review list of `p`, with an absent list read as the empty one (`p.reviews || []`). */
  function ReviewsOf(p: Product): seq<Review> {
    match p.reviews
    case None => []
    case Some(list) => list
  }

  /** A cart line: a snapshot of every product field plus a quantity; a line is identified by the product id. */
  datatype CartItem = CartItem(product: Product, quantity: int) {
    function Id(): string { product.id }
  }

  datatype Address = Address(id: string, name: string, street: string, city: string, zip: string, state: string)

  datatype User = User(phoneNumber: string, addresses: seq<Address>)

  datatype PaymentMethod = COD | UPI

  /** What the checkout hands to `onPlaceOrder`. */
  datatype OrderDetails = OrderDetails(address: Address, payment: PaymentMethod)

  /** A coupon of the static table: a code and the percentage it takes off. */
  datatype Coupon = Coupon(code: string, discountPercentage: int)

  /** The filter panel's fields; each is free text and "" means "not set". */
  datatype FilterState = FilterState(minPrice: string, maxPrice: string, category: string)

  datatype ViewState = HOME | CHECKOUT | SUCCESS | PRODUCT_DETAILS
}
