/**
 * The cart request and storage schemas. An incoming item must have a
 * positive quantity and defaults it to 1; a stored item also defaults it to
 * 1 but places no constraint on it; a cart-creation body is a list of
 * incoming items, empty when omitted.
 */
module CartSchemas {
  import opened Wrappers
  import opened Documents
  import opened Helpers

  /** A cart line as stored: the referenced book and how many copies. */
  datatype CartItem = CartItem(bookId: ObjectId, quantity: int)

  /** An item as it arrives in a request body; the quantity may be omitted. */
  datatype RawCartItem = RawCartItem(bookId: ObjectId, quantity: Option<int>)

  const DEFAULT_QUANTITY := 1

  /** Validation of an incoming item: the quantity defaults to 1 and must be greater than 0. */
  function ParseCartItem(raw: RawCartItem): (r: Result<CartItem, ValidationError>)
    ensures r.Success? <==> raw.quantity.None? || raw.quantity.value > 0
    ensures r.Success? ==> r.value.bookId == raw.bookId && r.value.quantity > 0
    ensures raw.quantity.None? ==> r == Success(CartItem(raw.bookId, 1))
    ensures raw.quantity.Some? && r.Success? ==> r.value.quantity == raw.quantity.value
    ensures r.Failure? ==> r.error.field == "quantity"
  {
    var quantity := raw.quantity.GetOr(DEFAULT_QUANTITY);
    if quantity > 0 then Success(CartItem(raw.bookId, quantity))
    else Failure(ValidationError("quantity", "Input should be greater than 0"))
  }

  /** Construction of a stored item: the quantity defaults to 1 and is otherwise taken as it is. */
  function StoredCartItem(bookId: ObjectId, quantity: Option<int>): CartItem {
    CartItem(bookId, quantity.GetOr(DEFAULT_QUANTITY))
  }

  /**
   * The stored schema accepts what the incoming schema rejects: a zero or
   * negative quantity survives storage, and an omitted one is 1 in both.
   */
  lemma StoredItemsAreUnconstrained(bookId: ObjectId, q: int)
    requires q <= 0
    ensures ParseCartItem(RawCartItem(bookId, Some(q))).Failure?
    ensures StoredCartItem(bookId, Some(q)).quantity == q
    ensures StoredCartItem(bookId, None) == ParseCartItem(RawCartItem(bookId, None)).value
  {
  }

  /** Validation of every listed item, reporting the first one that fails. */
  function ParseItems(raws: seq<RawCartItem>): (r: Result<seq<CartItem>, ValidationError>)
    ensures r.Success? <==> forall i :: 0 <= i < |raws| ==> ParseCartItem(raws[i]).Success?
    ensures r.Success? ==> |r.value| == |raws|
    ensures r.Success? ==> forall i :: 0 <= i < |raws| ==> r.value[i] == ParseCartItem(raws[i]).value
  {
    if |raws| == 0 then Success([])
    else
      match ParseCartItem(raws[0])
      case Failure(e) => Failure(e)
      case Success(item) =>
        match ParseItems(raws[1..])
        case Failure(e) => Failure(e)
        case Success(rest) => Success([item] + rest)
  }

  /**
   * Validation of a cart-creation body: the item list defaults to empty, and
   * it passes exactly when every item has a positive (or omitted) quantity.
   */
  function ParseCreateCart(items: Option<seq<RawCartItem>>): (r: Result<seq<CartItem>, ValidationError>)
    ensures items.None? ==> r == Success([])
    ensures r.Success? <==> forall i :: 0 <= i < |items.GetOr([])| ==> ParseCartItem(items.GetOr([])[i]).Success?
    ensures r.Success? ==> |r.value| == |items.GetOr([])|
    ensures r.Success? ==> forall i :: 0 <= i < |r.value| ==>
              r.value[i].quantity > 0 && r.value[i].bookId == items.GetOr([])[i].bookId
    ensures r.Success? ==> forall i :: 0 <= i < |r.value| ==>
              r.value[i].quantity == items.GetOr([])[i].quantity.GetOr(DEFAULT_QUANTITY)
  {
    ParseItems(items.GetOr([]))
  }
}
