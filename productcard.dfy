/**
 * The product tile (components/ProductCard.tsx): the quick-add quantity stepper, the
 * add button with its "added" feedback, and the share popup with its copy-link URL.
 */
module ProductCard {
  import opened Types

  /** `increaseQuantity`'s updater. */
  function Increased(q: int): (r: int)
    ensures r > q
  {
    q + 1
  }

  /** `decreaseQuantity`'s updater: one less, but never below 1. */
  function Decreased(q: int): (r: int)
    ensures r >= 1
    ensures r <= q || q < 1
  {
    if q > 1 then q - 1 else 1
  }

  /** A step up undoes nothing at the floor but is always undone by a step down. */
  lemma IncreaseThenDecrease(q: int)
    requires q >= 1
    ensures Decreased(Increased(q)) == q
  {
  }

  /** The stepper cannot go below 1 however often it is pressed. */
  lemma DecreaseAtFloor(q: int)
    requires q <= 1
    ensures Decreased(q) == 1 && Decreased(Decreased(q)) == 1
  {
  }

  /** Above the floor a step down is undone by a step up. */
  lemma DecreaseThenIncrease(q: int)
    requires q > 1
    ensures Increased(Decreased(q)) == q
  {
  }

  /** The simulated product link: the page origin, then `?product=`, then the product id. */
  function ShareUrl(origin: string, productId: string): (url: string)
    ensures |url| == |origin| + 9 + |productId|
    ensures url[..|origin|] == origin
    ensures url[|origin|..|origin| + 9] == "?product="
    ensures url[|origin| + 9..] == productId
  {
    origin + "?product=" + productId
  }

  /** Two products with different ids never share a link. */
  lemma ShareUrlDeterminesId(origin: string, a: string, b: string)
    requires ShareUrl(origin, a) == ShareUrl(origin, b)
    ensures a == b
  {
    assert a == ShareUrl(origin, a)[|origin| + 9..];
  }

  /** The card's local state: the stepper value and three feedback flags. */
  class Card {
    var quantity: int
    var isAdded: bool
    var showShare: bool
    var copied: bool

    /** The stepper never shows less than 1. */
    predicate Valid()
      reads this
    {
      quantity >= 1
    }

    constructor ()
      ensures Valid()
      ensures quantity == 1 && !isAdded && !showShare && !copied
    {
      quantity := 1;
      isAdded := false;
      showShare := false;
      copied := false;
    }

    method Increase()
      requires Valid()
      modifies this`quantity
      ensures Valid()
      ensures quantity == Increased(old(quantity))
    {
      quantity := quantity + 1;
    }

    method Decrease()
      requires Valid()
      modifies this`quantity
      ensures Valid()
      ensures quantity == Decreased(old(quantity))
    {
      if quantity > 1 {
        quantity := quantity - 1;
      } else {
        quantity := 1;
      }
    }

    /**
     * A press on the Add button. While the "added" feedback shows, the button is disabled and the
     * press does nothing; otherwise the current quantity goes to the cart (the returned value),
     * the feedback starts and the stepper returns to 1.
     */
    method PressAdd() returns (added: Option<int>)
      requires Valid()
      modifies this`quantity, this`isAdded
      ensures Valid()
      ensures old(isAdded) ==> added == None && quantity == old(quantity) && isAdded
      ensures !old(isAdded) ==> added == Some(old(quantity)) && isAdded && quantity == 1
      ensures added.Some? ==> added.value >= 1
    {
      if isAdded {
        added := None;
      } else {
        added := Some(quantity);
        isAdded := true;
        quantity := 1;
      }
    }

    /** The timer set by the Add button has fired. */
    method AddedFeedbackEnds()
      modifies this`isAdded
      ensures !isAdded
    {
      isAdded := false;
    }

    method ToggleShare()
      modifies this`showShare
      ensures showShare == !old(showShare)
    {
      showShare := !showShare;
    }

    /** `handleCopyLink`: the URL written to the clipboard, and the "copied" feedback. */
    method CopyLink(origin: string, productId: string) returns (url: string)
      modifies this`copied
      ensures url == ShareUrl(origin, productId)
      ensures copied
    {
      url := origin + "?product=" + productId;
      copied := true;
    }

    /** The timer set by the copy-link button has fired: the feedback and the popup close. */
    method CopiedFeedbackEnds()
      modifies this`copied, this`showShare
      ensures !copied && !showShare
    {
      copied := false;
      showShare := false;
    }
  }
}
