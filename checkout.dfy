/**
 * The checkout page (components/Checkout.tsx): the address selection, the new-address form,
 * the payment choice and the gate in front of `onPlaceOrder`.
 */
module Checkout {
  import opened Types
  import Seqs

  /** A selected id counts only when it is present and non-empty (JavaScript truthiness of a string). */
  predicate IsSelected(selected: Option<string>) {
    selected.Some? && selected.value != ""
  }

  /** The initial selection `user?.addresses[0]?.id || null`. */
  function InitialSelection(user: Option<User>): (sel: Option<string>)
    ensures IsSelected(sel) <==> user.Some? && |user.value.addresses| > 0 && user.value.addresses[0].id != ""
    ensures sel.Some? ==> IsSelected(sel) && sel.value == user.value.addresses[0].id
  {
    if user.Some? && |user.value.addresses| > 0 && user.value.addresses[0].id != "" then
      Some(user.value.addresses[0].id)
    else
      None
  }

  /** The key `addresses.find` compares: an address's id. */
  function AddressId(a: Address): string {
    a.id
  }

  /** `handlePlaceOrder`: the order handed on, if any, for the current selection and payment choice. */
  function OrderFor(user: Option<User>, selected: Option<string>, payment: PaymentMethod): (o: Option<OrderDetails>)
    ensures o.Some? ==> IsSelected(selected) && user.Some?
    ensures o.Some? ==> o.value.address in user.value.addresses && o.value.address.id == selected.value
    ensures o.Some? ==> o.value.payment == payment
    ensures IsSelected(selected) && user.Some? ==>
              (o.None? <==> forall i :: 0 <= i < |user.value.addresses| ==> user.value.addresses[i].id != selected.value)
  {
    if !IsSelected(selected) || user.None? then None
    else
      match Seqs.Find(user.value.addresses, AddressId, selected.value)
      case None => None
      case Some(address) => Some(OrderDetails(address, payment))
  }

  /** With nothing selected, or nobody signed in, no order goes out. */
  lemma NoSelectionNoOrder(user: Option<User>, selected: Option<string>, payment: PaymentMethod)
    requires !IsSelected(selected) || user.None?
    ensures OrderFor(user, selected, payment) == None
  {
  }

  /** The order carries the first of the user's addresses with the selected id. */
  lemma OrderCarriesFirstMatch(user: User, id: string, payment: PaymentMethod) returns (k: nat)
    requires OrderFor(Some(user), Some(id), payment).Some?
    ensures k < |user.addresses| && OrderFor(Some(user), Some(id), payment).value.address == user.addresses[k]
    ensures forall j :: 0 <= j < k ==> user.addresses[j].id != id
  {
    k := Seqs.FindIsFirst(user.addresses, AddressId, id);
  }

  /**
   * A freshly saved address, once the app has appended it to the user's list, is the one the
   * order carries: the form selects its id and nothing earlier in the list has that id.
   */
  lemma SavedAddressIsOrdered(user: User, a: Address, payment: PaymentMethod)
    requires a.id != ""
    requires forall i :: 0 <= i < |user.addresses| ==> user.addresses[i].id != a.id
    ensures OrderFor(Some(User(user.phoneNumber, user.addresses + [a])), Some(a.id), payment)
            == Some(OrderDetails(a, payment))
  {
    Seqs.FindAppended(user.addresses, AddressId, a);
  }

  /** The five fields of the new-address form. */
  datatype AddressDraft = AddressDraft(name: string, street: string, city: string, state: string, zip: string)

  datatype DraftField = Name | Street | City | State | Zip

  const EmptyDraft := AddressDraft("", "", "", "", "")

  /** One input's change handler: `{...newAddr, field: value}`. */
  function WithField(d: AddressDraft, field: DraftField, value: string): (r: AddressDraft)
    ensures r.name == (if field == Name then value else d.name)
    ensures r.street == (if field == Street then value else d.street)
    ensures r.city == (if field == City then value else d.city)
    ensures r.state == (if field == State then value else d.state)
    ensures r.zip == (if field == Zip then value else d.zip)
  {
    match field
    case Name => d.(name := value)
    case Street => d.(street := value)
    case City => d.(city := value)
    case State => d.(state := value)
    case Zip => d.(zip := value)
  }

  /** The address `handleAddAddress` builds: the given id and the draft's fields. */
  function DraftAddress(id: string, d: AddressDraft): (a: Address)
    ensures a.id == id && a.name == d.name && a.street == d.street
    ensures a.city == d.city && a.state == d.state && a.zip == d.zip
  {
    Address(id, d.name, d.street, d.city, d.zip, d.state)
  }

  /** Filling in every field of the empty form yields exactly the address typed. */
  lemma FillingTheFormGivesTheAddress(id: string, name: string, street: string, city: string, state: string, zip: string)
    ensures DraftAddress(id, WithField(WithField(WithField(WithField(WithField(EmptyDraft,
              Name, name), Street, street), City, city), State, state), Zip, zip))
            == Address(id, name, street, city, zip, state)
  {
  }

  class CheckoutForm {
    var selectedAddressId: Option<string>
    var paymentMethod: PaymentMethod
    var isAddingAddress: bool
    var newAddr: AddressDraft
    /** The `totalAmount` prop, shown as the amount to pay. */
    var totalAmount: real

    constructor (user: Option<User>, totalAmount: real)
      ensures selectedAddressId == InitialSelection(user)
      ensures paymentMethod == UPI && !isAddingAddress && newAddr == EmptyDraft
      ensures this.totalAmount == totalAmount
    {
      this.totalAmount := totalAmount;
      selectedAddressId := InitialSelection(user);
      paymentMethod := UPI;
      isAddingAddress := false;
      newAddr := EmptyDraft;
    }

    /** A click on one of the listed addresses. */
    method SelectAddress(id: string)
      modifies this`selectedAddressId
      ensures selectedAddressId == Some(id)
    {
      selectedAddressId := Some(id);
    }

    /** The UPI and Cash on Delivery buttons. */
    method SelectPayment(choice: PaymentMethod)
      modifies this`paymentMethod
      ensures paymentMethod == choice
    {
      paymentMethod := choice;
    }

    method StartAdding()
      modifies this`isAddingAddress
      ensures isAddingAddress
    {
      isAddingAddress := true;
    }

    /** Cancel closes the form and keeps what was typed. */
    method CancelAdding()
      modifies this`isAddingAddress
      ensures !isAddingAddress
    {
      isAddingAddress := false;
    }

    method EditDraft(field: DraftField, value: string)
      modifies this`newAddr
      ensures newAddr == WithField(old(newAddr), field, value)
    {
      newAddr := WithField(newAddr, field, value);
    }

    /**
     * `handleAddAddress`, with the timestamp id supplied: the address handed to `onAddAddress`,
     * which becomes the selection; the form closes and the draft is not cleared.
     */
    method SaveAddress(id: string) returns (address: Address)
      modifies this`selectedAddressId, this`isAddingAddress
      ensures address == DraftAddress(id, newAddr)
      ensures selectedAddressId == Some(id)
      ensures !isAddingAddress
    {
      address := Address(id, newAddr.name, newAddr.street, newAddr.city, newAddr.zip, newAddr.state);
      selectedAddressId := Some(address.id);
      isAddingAddress := false;
    }

    /** The Place Order button; `None` stands for the alert or the silent no-op. */
    method PlaceOrder(user: Option<User>) returns (order: Option<OrderDetails>)
      ensures order == OrderFor(user, selectedAddressId, paymentMethod)
    {
      if !(selectedAddressId.Some? && selectedAddressId.value != "") || user.None? {
        return None;
      }
      var found := Seqs.Find(user.value.addresses, AddressId, selectedAddressId.value);
      if found.Some? {
        order := Some(OrderDetails(found.value, paymentMethod));
      } else {
        order := None;
      }
    }

    /** The Place Order button is greyed out while no address is selected. */
    predicate PlaceOrderDisabled()
      reads this
    {
      !IsSelected(selectedAddressId)
    }

    /** A disabled button can never place an order. */
    lemma DisabledPlacesNothing(user: Option<User>)
      requires PlaceOrderDisabled()
      ensures OrderFor(user, selectedAddressId, paymentMethod) == None
    {
    }
  }
}
