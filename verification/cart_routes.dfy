/**
 * The cart endpoints. Every handler acts on the cart of the authenticated
 * caller `userId` in a store of carts keyed by owner, checks the catalogue
 * for the book it is given, and answers with a status code and a body.
 * A request body is validated before the handler runs (422 when it fails).
 */
module CartRoutes {
  import opened Wrappers
  import opened Documents
  import opened Helpers
  import opened CartSchemas
  import opened Carts

  /** What is persisted of one cart. */
  datatype CartState = CartState(items: seq<CartItem>, totalPrice: int)

  /** The cart of `userId` in `carts`, or the empty cart a first add creates. */
  function CartOf(carts: map<ObjectId, CartState>, userId: ObjectId): CartState {
    if userId in carts then carts[userId] else CartState([], 0)
  }

  /** Every cart has unique books and positive quantities. */
  ghost predicate WellFormed(carts: map<ObjectId, CartState>) {
    forall u :: u in carts ==> UniqueBooks(carts[u].items) && AllPositive(carts[u].items)
  }

  /** Adding a positive quantity to one cart keeps every cart well formed. */
  lemma AddKeepsWellFormed(carts: map<ObjectId, CartState>, userId: ObjectId, bookId: ObjectId, quantity: int)
    requires WellFormed(carts) && quantity > 0
    ensures var before := CartOf(carts, userId);
            WellFormed(carts[userId := CartState(AddItem(before.items, bookId, quantity), before.totalPrice)])
  {
    var before := CartOf(carts, userId);
    AddItemAsMap(before.items, bookId, quantity);
    AddItemKeepsPositive(before.items, bookId, quantity);
  }

  /** Removing a book from one cart keeps every cart well formed. */
  lemma RemoveKeepsWellFormed(carts: map<ObjectId, CartState>, userId: ObjectId, bookId: ObjectId)
    requires WellFormed(carts) && userId in carts
    ensures WellFormed(carts[userId := CartState(RemovePass(carts[userId].items, bookId, 0), carts[userId].totalPrice)])
  {
    var items := carts[userId].items;
    RemovePassOfUnique(items, bookId, 0);
    RemoveBookAsMap(items, bookId);
    RemoveBookKeepsPositive(items, bookId);
  }

  /** Setting a positive quantity in one cart keeps every cart well formed. */
  lemma UpdateKeepsWellFormed(carts: map<ObjectId, CartState>, userId: ObjectId, bookId: ObjectId, quantity: int)
    requires WellFormed(carts) && userId in carts && quantity > 0
    ensures WellFormed(carts[userId := CartState(UpdateItem(carts[userId].items, bookId, quantity), carts[userId].totalPrice)])
  {
    UpdateItemAsMap(carts[userId].items, bookId, quantity);
  }

  function ItemJson(item: CartItem): Json {
    JObj([("book_id", JInt(item.bookId)), ("quantity", JInt(item.quantity))])
  }

  /** The body describing a cart: its lines and its stored total. */
  function CartJson(items: seq<CartItem>, totalPrice: int): Json {
    JObj([("cart_items", JArr(seq(|items|, i requires 0 <= i < |items| => ItemJson(items[i])))),
          ("total_price", JInt(totalPrice))])
  }

  function NotFound(what: string): Reply {
    Raise(HttpException(HTTP_404_NOT_FOUND, JStr(what + " not found")))
  }

  const CartUpdated: Reply := Send(JsonResponse(HTTP_200_OK, JStr("cart updated")))

  class CartStore {
    /** The carts, keyed by the id of their owner. */
    var carts: map<ObjectId, Cart>
    /** The catalogue: the books that exist, by id. */
    const books: map<ObjectId, Book>

    constructor (books: map<ObjectId, Book>)
      ensures Valid() && carts == map[] && this.books == books
    {
      carts := map[];
      this.books := books;
    }

    /** Each cart is stored under the id of its owner, so no two owners share a cart. */
    ghost predicate Valid()
      reads this
    {
      forall u :: u in carts ==> carts[u].userId == u
    }

    /** The persisted carts. */
    ghost function State(): map<ObjectId, CartState>
      reads this, carts.Values
    {
      map u | u in carts :: CartState(carts[u].cartItems, carts[u].totalPrice)
    }

    /**
     * Creates the caller's cart from the listed items. A caller who already
     * has a cart gets it back unchanged (200) and nothing is inserted;
     * otherwise a cart with exactly the listed lines and a total of 0 is
     * inserted, but the 201 response that should carry it cannot be
     * rendered: its content still holds the document ids as id objects,
     * which the JSON encoder refuses, so the reply is 500 with the cart
     * already stored.
     */
    method CreateCart(userId: ObjectId, items: Option<seq<RawCartItem>>) returns (reply: Reply)
      requires Valid()
      modifies this
      ensures Valid()
      ensures ParseCreateCart(items).Failure? ==>
                reply == Unprocessable(ParseCreateCart(items).error) && carts == old(carts)
      ensures ParseCreateCart(items).Success? && userId in old(carts) ==>
                && reply == Reply(HTTP_200_OK, CartJson(old(State())[userId].items, old(State())[userId].totalPrice))
                && carts == old(carts)
      ensures ParseCreateCart(items).Success? && userId !in old(carts) ==>
                var lines := ParseCreateCart(items).value;
                && reply == InternalServerError
                && State() == old(State())[userId := CartState(lines, 0)]
                && AllPositive(State()[userId].items)
      ensures forall c :: c in carts.Values ==> c in old(carts.Values) || fresh(c)
    {
      var parsed := ParseCreateCart(items);
      if parsed.Failure? {
        return Unprocessable(parsed.error);
      }
      if userId in carts {
        var existing := carts[userId];
        return Reply(HTTP_200_OK, CartJson(existing.cartItems, existing.totalPrice));
      }
      var cart := new Cart(userId, parsed.value);
      carts := carts[userId := cart];
      assert State() == old(State())[userId := CartState(parsed.value, 0)];
      reply := InternalServerError;
    }

    /**
     * Adds a book to the caller's cart. An unknown book gives 404 and no
     * cart changes; a caller without a cart first gets an empty one; the
     * line is then merged or appended (200).
     */
    method AddBookToCart(userId: ObjectId, item: RawCartItem) returns (reply: Reply)
      requires Valid()
      modifies this, carts.Values
      ensures Valid()
      ensures ParseCartItem(item).Failure? ==>
                reply == Unprocessable(ParseCartItem(item).error) && carts == old(carts) && State() == old(State())
      ensures ParseCartItem(item).Success? && item.bookId !in books ==>
                reply == NotFound("Book") && carts == old(carts) && State() == old(State())
      ensures ParseCartItem(item).Success? && item.bookId in books ==>
                var q := ParseCartItem(item).value.quantity;
                var before := CartOf(old(State()), userId);
                && reply == CartUpdated
                && State() == old(State())[userId := CartState(AddItem(before.items, item.bookId, q), before.totalPrice)]
      ensures WellFormed(old(State())) ==> WellFormed(State())
      ensures forall c :: c in carts.Values ==> c in old(carts.Values) || fresh(c)
    {
      var parsed := ParseCartItem(item);
      if parsed.Failure? {
        return Unprocessable(parsed.error);
      }
      if item.bookId !in books {
        return NotFound("Book");
      }
      ghost var before := CartOf(State(), userId);
      var cart: Cart;
      if userId in carts {
        cart := carts[userId];
      } else {
        cart := new Cart(userId, []);
        carts := carts[userId := cart];
      }
      assert forall u :: u in carts && u != userId ==> carts[u] != cart && u in old(carts) && carts[u] == old(carts)[u];
      cart.AddToCart(bookId := item.bookId, quantity := parsed.value.quantity);
      assert State() == old(State())[userId := CartState(AddItem(before.items, item.bookId, parsed.value.quantity), before.totalPrice)];
      if WellFormed(old(State())) {
        AddKeepsWellFormed(old(State()), userId, item.bookId, parsed.value.quantity);
      }
      reply := CartUpdated;
    }

    /**
     * Removes a book from the caller's cart. The book is checked first: an
     * unknown book gives 404 even when there is no cart; a missing cart gives
     * 404; otherwise the removal loop runs (204), which with unique books
     * deletes exactly that book's line.
     */
    method RemoveBookFromCart(userId: ObjectId, bookId: ObjectId) returns (reply: Reply)
      requires Valid()
      modifies carts.Values
      ensures Valid()
      ensures bookId !in books ==> reply == NotFound("Book") && State() == old(State())
      ensures bookId in books && userId !in carts ==> reply == NotFound("Cart") && State() == old(State())
      ensures bookId in books && userId in carts ==>
                var before := old(State())[userId];
                && reply == NoContent
                && State() == old(State())[userId := CartState(RemovePass(before.items, bookId, 0), before.totalPrice)]
                && (UniqueBooks(before.items) ==> State()[userId].items == RemoveBook(before.items, bookId))
      ensures WellFormed(old(State())) ==> WellFormed(State())
    {
      if bookId !in books {
        return NotFound("Book");
      }
      if userId !in carts {
        return NotFound("Cart");
      }
      ghost var before := State()[userId];
      var cart := carts[userId];
      assert forall u :: u in carts && u != userId ==> carts[u] != cart;
      cart.RemoveFromCart(bookId := bookId);
      assert State() == old(State())[userId := CartState(RemovePass(before.items, bookId, 0), before.totalPrice)];
      if UniqueBooks(before.items) {
        RemovePassOfUnique(before.items, bookId, 0);
      }
      if WellFormed(old(State())) {
        RemoveKeepsWellFormed(old(State()), userId, bookId);
      }
      reply := NoContent;
    }

    /**
     * Sets the quantity of a book in the caller's cart. The cart is checked
     * first, then the book, each giving 404 when missing; a known book with
     * no line in the cart still gives 200 and changes nothing.
     */
    method UpdateCartItem(userId: ObjectId, item: RawCartItem) returns (reply: Reply)
      requires Valid()
      modifies carts.Values
      ensures Valid()
      ensures ParseCartItem(item).Failure? ==>
                reply == Unprocessable(ParseCartItem(item).error) && State() == old(State())
      ensures ParseCartItem(item).Success? && userId !in carts ==>
                reply == NotFound("Cart") && State() == old(State())
      ensures ParseCartItem(item).Success? && userId in carts && item.bookId !in books ==>
                reply == NotFound("Book") && State() == old(State())
      ensures ParseCartItem(item).Success? && userId in carts && item.bookId in books ==>
                var before := old(State())[userId];
                && reply == CartUpdated
                && State() == old(State())[userId := CartState(UpdateItem(before.items, item.bookId, ParseCartItem(item).value.quantity), before.totalPrice)]
      ensures WellFormed(old(State())) ==> WellFormed(State())
    {
      var parsed := ParseCartItem(item);
      if parsed.Failure? {
        return Unprocessable(parsed.error);
      }
      if userId !in carts {
        return NotFound("Cart");
      }
      if item.bookId !in books {
        return NotFound("Book");
      }
      ghost var before := State()[userId];
      var cart := carts[userId];
      assert forall u :: u in carts && u != userId ==> carts[u] != cart;
      cart.UpdateCartItems(bookId := item.bookId, quantity := parsed.value.quantity);
      assert State() == old(State())[userId := CartState(UpdateItem(before.items, item.bookId, parsed.value.quantity), before.totalPrice)];
      if WellFormed(old(State())) {
        UpdateKeepsWellFormed(old(State()), userId, item.bookId, parsed.value.quantity);
      }
      reply := CartUpdated;
    }

    /**
     * Returns the caller's cart after running the total computation, which
     * adds the price of the cart to the stored total. No cart gives 404; a
     * line whose book has left the catalogue makes the handler fail (500)
     * with nothing saved.
     */
    method GetCart(userId: ObjectId) returns (reply: Reply)
      requires Valid()
      modifies carts.Values
      ensures Valid()
      ensures userId !in carts ==> reply == NotFound("Cart") && State() == old(State())
      ensures userId in carts && !AllPriced(old(State())[userId].items, books) ==>
                reply == InternalServerError && State() == old(State())
      ensures userId in carts && AllPriced(old(State())[userId].items, books) ==>
                var before := old(State())[userId];
                var total := before.totalPrice + Total(before.items, books);
                && reply == Reply(HTTP_200_OK, CartJson(before.items, total))
                && State() == old(State())[userId := CartState(before.items, total)]
      ensures WellFormed(old(State())) ==> WellFormed(State())
    {
      if userId !in carts {
        return NotFound("Cart");
      }
      ghost var before := State()[userId];
      var cart := carts[userId];
      assert forall u :: u in carts && u != userId ==> carts[u] != cart;
      var ok := cart.CalculateTotalPrice(books);
      if !ok {
        assert State() == old(State());
        return InternalServerError;
      }
      assert State() == old(State())[userId := CartState(before.items, cart.totalPrice)];
      reply := Reply(HTTP_200_OK, CartJson(cart.cartItems, cart.totalPrice));
    }

    /**
     * Deletes the caller's cart (204). There is no check for a missing cart:
     * the handler then fails (500) and nothing changes.
     */
    method DeleteCart(userId: ObjectId) returns (reply: Reply)
      requires Valid()
      modifies this
      ensures Valid()
      ensures userId !in old(carts) ==> reply == InternalServerError && carts == old(carts)
      ensures userId in old(carts) ==> reply == NoContent && carts == old(carts) - {userId}
      ensures State() == old(State()) - {userId}
    {
      if userId !in carts {
        return InternalServerError;
      }
      carts := carts - {userId};
      reply := NoContent;
    }
  }
}
