/**
 * The chat widget (components/AiStylist.tsx): the send guard, the message list, and the
 * context sentence that describes what the shopper is looking at. The model call itself
 * (`getStylingAdvice`) is a function parameter.
 */
module AiStylist {
  import Types
  import opened Text

  datatype Sender = User | Ai

  datatype Message = Message(id: string, text: string, sender: Sender)

  /** The one message the list starts with. */
  const Greeting := Message("1", "Hello! I'm Dearest AI. Looking for outfit inspiration or advice on our collection?", Ai)

  /** What goes to the stylist service: the shopper's question and the context. */
  datatype Request = Request(query: string, context: string)

  // ---- the context sentence ----

  const Base: string := "User is browsing the Dearest online store (Innerwear & Loungewear brand)."

  const HomeClause: string := " They are browsing the main collection on the Home page."

  /** `p.description || 'No description provided'`. */
  function DescriptionOrDefault(description: string): (d: string)
    ensures d != ""
    ensures description != "" ==> d == description
  {
    if description != "" then description else "No description provided"
  }

  /**
   * The product clause, line breaks and indentation included. `show` is JavaScript's
   * number-to-string conversion of the price.
   */
  function ProductClause(p: Types.Product, show: real -> string): string {
    " They are currently viewing the product: \"" + p.name + "\". \n      Category: " + p.category
    + ". \n      Price: \U{20B9}" + show(p.price) + ". \n      Description: "
    + DescriptionOrDefault(p.description) + "."
  }

  function CheckoutClause(lines: nat): string {
    " They are currently at the checkout page with " + NatToString(lines) + " items in their cart."
  }

  /** The clause the current view adds; other views (and a detail view without a product) add none. */
  function ViewClause(view: Types.ViewState, currentProduct: Types.Option<Types.Product>,
                      cartItems: seq<Types.CartItem>, show: real -> string): string
  {
    if view == Types.PRODUCT_DETAILS && currentProduct.Some? then ProductClause(currentProduct.value, show)
    else if view == Types.CHECKOUT then CheckoutClause(|cartItems|)
    else if view == Types.HOME then HomeClause
    else ""
  }

  /** `cartItems.map(i => i.name)`. */
  function CartNames(cartItems: seq<Types.CartItem>): (names: seq<string>)
    ensures |names| == |cartItems|
    ensures forall i :: 0 <= i < |cartItems| ==> names[i] == cartItems[i].product.name
  {
    seq(|cartItems|, i requires 0 <= i < |cartItems| => cartItems[i].product.name)
  }

  function CartClause(cartItems: seq<Types.CartItem>): string {
    if |cartItems| > 0 then " Items currently in cart: " + Join(CartNames(cartItems), ", ") + "." else ""
  }

  /** The context sentence, as a value: the base, the view's clause, then the cart's. */
  function Context(view: Types.ViewState, currentProduct: Types.Option<Types.Product>,
                   cartItems: seq<Types.CartItem>, show: real -> string): string
  {
    Base + ViewClause(view, currentProduct, cartItems, show) + CartClause(cartItems)
  }

  /** The context is built by appending to a `let`, clause after clause. */
  method BuildContext(view: Types.ViewState, currentProduct: Types.Option<Types.Product>,
                      cartItems: seq<Types.CartItem>, show: real -> string) returns (context: string)
    ensures context == Context(view, currentProduct, cartItems, show)
  {
    ghost var clause := ViewClause(view, currentProduct, cartItems, show);
    context := Base;
    if view == Types.PRODUCT_DETAILS && currentProduct.Some? {
      context := context + ProductClause(currentProduct.value, show);
    } else if view == Types.CHECKOUT {
      context := context + CheckoutClause(|cartItems|);
    } else if view == Types.HOME {
      context := context + HomeClause;
    } else {
      assert Base + clause == Base;
    }
    assert context == Base + clause;
    if |cartItems| > 0 {
      context := context + CartClause(cartItems);
    } else {
      assert context + CartClause(cartItems) == context;
    }
  }

  /** `a` is a prefix of `a + b + c`. */
  lemma PrefixOfConcat(a: string, b: string, c: string)
    ensures |a + b + c| >= |a| && (a + b + c)[..|a|] == a
  {
    assert (a + b + c)[..|a|] == (a + (b + c))[..|a|];
  }

  /** Whatever the view, the context opens with the base sentence. */
  lemma ContextStartsWithBase(view: Types.ViewState, currentProduct: Types.Option<Types.Product>,
                              cartItems: seq<Types.CartItem>, show: real -> string)
    ensures |Context(view, currentProduct, cartItems, show)| >= |Base|
    ensures Context(view, currentProduct, cartItems, show)[..|Base|] == Base
  {
    PrefixOfConcat(Base, ViewClause(view, currentProduct, cartItems, show), CartClause(cartItems));
  }

  /** `t` occurs in `a + (l + t + r) + z`. */
  lemma ContainsInClause(a: string, l: string, t: string, r: string, z: string)
    ensures Contains(a + (l + t + r) + z, t)
  {
    assert a + (l + t + r) + z == (a + l) + t + (r + z);
    ContainsInside(a + l, t, r + z);
  }

  /** The three fields of a product clause each occur in a context built around it. */
  lemma ProductFieldsInClause(a: string, l1: string, n: string, l2: string, c: string, l3: string,
                              s: string, l4: string, d: string, l5: string, z: string)
    ensures Contains(a + (l1 + n + l2 + c + l3 + s + l4 + d + l5) + z, n)
    ensures Contains(a + (l1 + n + l2 + c + l3 + s + l4 + d + l5) + z, c)
    ensures Contains(a + (l1 + n + l2 + c + l3 + s + l4 + d + l5) + z, s)
  {
    var whole := l1 + n + l2 + c + l3 + s + l4 + d + l5;
    assert whole == l1 + n + (l2 + c + l3 + s + l4 + d + l5);
    ContainsInClause(a, l1, n, l2 + c + l3 + s + l4 + d + l5, z);
    assert whole == (l1 + n + l2) + c + (l3 + s + l4 + d + l5);
    ContainsInClause(a, l1 + n + l2, c, l3 + s + l4 + d + l5, z);
    assert whole == (l1 + n + l2 + c + l3) + s + (l4 + d + l5);
    ContainsInClause(a, l1 + n + l2 + c + l3, s, l4 + d + l5, z);
  }

  /** On a product page the context names the product, its category and its price. */
  lemma ProductContextDescribesProduct(p: Types.Product, cartItems: seq<Types.CartItem>, show: real -> string)
    ensures Contains(Context(Types.PRODUCT_DETAILS, Types.Some(p), cartItems, show), p.name)
    ensures Contains(Context(Types.PRODUCT_DETAILS, Types.Some(p), cartItems, show), p.category)
    ensures Contains(Context(Types.PRODUCT_DETAILS, Types.Some(p), cartItems, show), show(p.price))
  {
    ProductFieldsInClause(Base, " They are currently viewing the product: \"", p.name, "\". \n      Category: ",
                          p.category, ". \n      Price: \U{20B9}", show(p.price), ". \n      Description: ",
                          DescriptionOrDefault(p.description), ".", CartClause(cartItems));
  }

  /** At checkout the context states how many lines the cart has. */
  lemma CheckoutContextCountsLines(currentProduct: Types.Option<Types.Product>, cartItems: seq<Types.CartItem>,
                                   show: real -> string)
    ensures Contains(Context(Types.CHECKOUT, currentProduct, cartItems, show),
                     " They are currently at the checkout page with " + NatToString(|cartItems|) + " items in their cart.")
    ensures Contains(Context(Types.CHECKOUT, currentProduct, cartItems, show), NatToString(|cartItems|))
  {
    ContainsInside(Base, CheckoutClause(|cartItems|), CartClause(cartItems));
    ContainsInClause(Base, " They are currently at the checkout page with ", NatToString(|cartItems|),
                     " items in their cart.", CartClause(cartItems));
  }

  /** On the home page the context carries the browsing sentence. */
  lemma HomeContextSaysBrowsing(currentProduct: Types.Option<Types.Product>, cartItems: seq<Types.CartItem>,
                                show: real -> string)
    ensures Contains(Context(Types.HOME, currentProduct, cartItems, show), HomeClause)
  {
    ContainsInside(Base, HomeClause, CartClause(cartItems));
  }

  /** `t`, occurring in `j`, occurs in `a + (l + j + r)`. */
  lemma ContainsThroughJoin(a: string, l: string, j: string, r: string, t: string)
    requires Contains(j, t)
    ensures Contains(a + (l + j + r), t)
  {
    var i := ContainsAt(j, t);
    assert j == j[..i] + t + j[i + |t|..];
    assert a + (l + j + r) == (a + l + j[..i]) + t + (j[i + |t|..] + r);
    ContainsInside(a + l + j[..i], t, j[i + |t|..] + r);
  }

  /** Every cart line's product name appears in the context. */
  lemma ContextNamesCartItems(view: Types.ViewState, currentProduct: Types.Option<Types.Product>,
                              cartItems: seq<Types.CartItem>, show: real -> string, k: nat)
    requires k < |cartItems|
    ensures Contains(Context(view, currentProduct, cartItems, show), cartItems[k].product.name)
  {
    var names := CartNames(cartItems);
    JoinContainsEach(names, ", ", k);
    ContainsThroughJoin(Base + ViewClause(view, currentProduct, cartItems, show), " Items currently in cart: ",
                        Join(names, ", "), ".", names[k]);
  }

  /** With an empty cart and a view that adds nothing, the context is the base sentence alone. */
  lemma SuccessPageEmptyCartContext(currentProduct: Types.Option<Types.Product>, show: real -> string)
    ensures Context(Types.SUCCESS, currentProduct, [], show) == Base
  {
  }

  // ---- the widget ----

  class ChatWidget {
    var isOpen: bool
    var messages: seq<Message>
    var inputValue: string
    var isLoading: bool

    /** The greeting stays first, and a reply is pending exactly when the last message is the shopper's. */
    predicate Valid()
      reads this
    {
      |messages| >= 1 && messages[0] == Greeting && (isLoading <==> messages[|messages| - 1].sender == User)
    }

    constructor ()
      ensures Valid()
      ensures messages == [Greeting] && inputValue == "" && !isLoading && !isOpen
    {
      isOpen := false;
      messages := [Greeting];
      inputValue := "";
      isLoading := false;
    }

    method Open()
      modifies this`isOpen
      ensures isOpen
    {
      isOpen := true;
    }

    method Close()
      modifies this`isOpen
      ensures !isOpen
    {
      isOpen := false;
    }

    method SetInput(text: string)
      modifies this`inputValue
      ensures inputValue == text
    {
      inputValue := text;
    }

    /**
     * The first half of `handleSend`, up to the service call. A blank input or a pending reply
     * stops it; otherwise the question joins the list, the input clears, loading starts and the
     * request for the service is returned.
     */
    method BeginSend(id: string, view: Types.ViewState, currentProduct: Types.Option<Types.Product>,
                     cartItems: seq<Types.CartItem>, show: real -> string) returns (request: Types.Option<Request>)
      requires Valid()
      modifies this`messages, this`inputValue, this`isLoading
      ensures Valid()
      ensures IsBlank(old(inputValue)) || old(isLoading) ==>
                request == Types.None && messages == old(messages) && inputValue == old(inputValue)
                && isLoading == old(isLoading)
      ensures !IsBlank(old(inputValue)) && !old(isLoading) ==>
                request == Types.Some(Request(old(inputValue), Context(view, currentProduct, cartItems, show)))
                && messages == old(messages) + [Message(id, old(inputValue), User)]
                && inputValue == "" && isLoading
    {
      if IsBlank(inputValue) || isLoading {
        return Types.None;
      }
      var userMsg := Message(id, inputValue, User);
      messages := messages + [userMsg];
      inputValue := "";
      isLoading := true;
      var context := BuildContext(view, currentProduct, cartItems, show);
      request := Types.Some(Request(userMsg.text, context));
    }

    /** The second half: the service's reply joins the list and loading ends. */
    method FinishSend(id: string, reply: string)
      requires Valid() && isLoading
      modifies this`messages, this`isLoading
      ensures Valid()
      ensures messages == old(messages) + [Message(id, reply, Ai)]
      ensures !isLoading
    {
      messages := messages + [Message(id, reply, Ai)];
      isLoading := false;
    }

    /**
     * The whole `handleSend`, with the stylist service as the function `advice` of question and
     * context: when it goes through, the list grows by the question and then the answer.
     */
    method HandleSend(userId: string, aiId: string, view: Types.ViewState, currentProduct: Types.Option<Types.Product>,
                      cartItems: seq<Types.CartItem>, show: real -> string, advice: (string, string) -> string)
      requires Valid()
      modifies this`messages, this`inputValue, this`isLoading
      ensures Valid()
      ensures IsBlank(old(inputValue)) || old(isLoading) ==>
                messages == old(messages) && inputValue == old(inputValue) && isLoading == old(isLoading)
      ensures !IsBlank(old(inputValue)) && !old(isLoading) ==>
                messages == old(messages) + [Message(userId, old(inputValue), User),
                                             Message(aiId, advice(old(inputValue), Context(view, currentProduct, cartItems, show)), Ai)]
                && inputValue == "" && !isLoading
    {
      var request := BeginSend(userId, view, currentProduct, cartItems, show);
      if request.Some? {
        FinishSend(aiId, advice(request.value.query, request.value.context));
      }
    }
  }
}
