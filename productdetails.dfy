/**
 * The product page (components/ProductDetails.tsx): the average rating over a product's
 * reviews and the review form with its star selector.
 */
module ProductDetails {
  import opened Types
  import Cart
  import Catalog

  function SumRatings(reviews: seq<Review>): int
    decreases |reviews|
  {
    if reviews == [] then 0 else reviews[0].rating + SumRatings(reviews[1..])
  }

  /** `averageRating`: the mean star rating, with 0 standing for "no reviews" (absent or empty list). */
  function AverageRating(reviews: Option<seq<Review>>): (avg: real)
    ensures (reviews.None? || reviews.value == []) ==> avg == 0.0
    ensures reviews.Some? && reviews.value != [] ==>
              avg * |reviews.value| as real == SumRatings(reviews.value) as real
  {
    if reviews.Some? && |reviews.value| > 0 then SumRatings(reviews.value) as real / |reviews.value| as real
    else 0.0
  }

  predicate RatingsInRange(reviews: seq<Review>) {
    forall i :: 0 <= i < |reviews| ==> 1 <= reviews[i].rating <= 5
  }

  lemma {:induction false} SumRatingsBounds(reviews: seq<Review>)
    requires RatingsInRange(reviews)
    ensures |reviews| <= SumRatings(reviews) <= 5 * |reviews|
    decreases |reviews|
  {
    if reviews != [] {
      SumRatingsBounds(reviews[1..]);
    }
  }

  /** When every rating is a star count from 1 to 5, a non-empty list averages between 1 and 5. */
  lemma AverageInStarRange(reviews: seq<Review>)
    requires RatingsInRange(reviews) && reviews != []
    ensures 1.0 <= AverageRating(Some(reviews)) <= 5.0
  {
    SumRatingsBounds(reviews);
    var n, sum := |reviews| as real, SumRatings(reviews) as real;
    var avg := AverageRating(Some(reviews));
    assert avg * n == sum;
    assert n <= sum <= 5.0 * n;
    ScaledBounds(avg, n, sum);
  }

  /** A number whose product with a positive `n` lies in [n, 5n] lies in [1, 5]. */
  lemma ScaledBounds(q: real, n: real, s: real)
    requires n > 0.0 && q * n == s && n <= s <= 5.0 * n
    ensures 1.0 <= q <= 5.0
  {
  }

  /** The rating badge's condition (`averageRating > 0`). */
  predicate ShowsRatingBadge(p: Product) {
    AverageRating(p.reviews) > 0.0
  }

  /** With 1-5 star ratings, the badge shows exactly when the product has at least one review. */
  lemma BadgeIffReviewed(p: Product)
    requires RatingsInRange(ReviewsOf(p))
    ensures ShowsRatingBadge(p) <==> ReviewsOf(p) != []
  {
    if ReviewsOf(p) != [] {
      AverageInStarRange(ReviewsOf(p));
    }
  }

  lemma AverageExample(a: Review, b: Review, c: Review)
    requires a.rating == 5 && b.rating == 3 && c.rating == 4
    ensures AverageRating(Some([a, b, c])) == 4.0
    ensures AverageRating(Some([])) == 0.0 && AverageRating(None) == 0.0
  {
    assert SumRatings([c]) == 4 by { assert [c][1..] == []; }
    assert SumRatings([b, c]) == 7 by { assert [b, c][1..] == [c]; }
    assert SumRatings([a, b, c]) == 12 by { assert [a, b, c][1..] == [b, c]; }
  }

  /** The name shown on a review: the entered name, or "Anonymous" when it is empty (`name || 'Anonymous'`). */
  function ReviewerName(name: string): (shown: string)
    ensures shown != ""
    ensures name != "" ==> shown == name
  {
    if name == "" then "Anonymous" else name
  }

  /** "Add to Bag" on this page always adds one piece, keeping the cart well formed. */
  lemma AddToBagAddsOne(cart: seq<CartItem>, p: Product)
    requires Cart.WellFormed(cart)
    ensures Cart.WellFormed(Cart.AddToCart(cart, p, 1))
    ensures Cart.ItemCount(Cart.AddToCart(cart, p, 1)) == Cart.ItemCount(cart) + 1
  {
    Cart.AddToCartPreservesWellFormed(cart, p, 1);
    Cart.AddToCartItemCount(cart, p, 1);
  }

  /** A review from the form keeps a product's ratings in 1..5, and its badge then shows. */
  lemma ReviewedProductShowsBadge(p: Product, review: Review)
    requires RatingsInRange(ReviewsOf(p)) && 1 <= review.rating <= 5
    ensures RatingsInRange(ReviewsOf(Catalog.WithReview(p, review)))
    ensures ShowsRatingBadge(Catalog.WithReview(p, review))
  {
    var q := Catalog.WithReview(p, review);
    assert ReviewsOf(q) == [review] + ReviewsOf(p);
    BadgeIffReviewed(q);
  }

  /** The review form: a star rating, a comment and an optional name. */
  class ReviewForm {
    var rating: int
    var comment: string
    var name: string

    /** The selector only ever holds a star value. */
    predicate Valid()
      reads this
    {
      1 <= rating <= 5
    }

    constructor ()
      ensures Valid() && rating == 5 && comment == "" && name == ""
    {
      rating := 5;
      comment := "";
      name := "";
    }

    /** One of the five star buttons. */
    method SelectStar(star: int)
      requires 1 <= star <= 5
      modifies this`rating
      ensures Valid() && rating == star
    {
      rating := star;
    }

    method SetComment(text: string)
      modifies this`comment
      ensures comment == text
    {
      comment := text;
    }

    method SetName(text: string)
      modifies this`name
      ensures name == text
    {
      name := text;
    }

    /**
     * `handleSubmitReview`: build the review for `onAddReview` from the form (id and date
     * come from the clock), then reset the form to 5 stars with empty fields.
     */
    method Submit(id: string, date: string) returns (review: Review)
      requires Valid()
      modifies this
      ensures Valid() && rating == 5 && comment == "" && name == ""
      ensures review == Review(id, ReviewerName(old(name)), old(rating), old(comment), date)
      ensures 1 <= review.rating <= 5 && review.userName != ""
    {
      review := Review(id, ReviewerName(name), rating, comment, date);
      comment := "";
      name := "";
      rating := 5;
    }
  }
}
