/**
 * The cart document: the items one user has put in the cart, as a list of
 * (book, quantity) lines, and an accumulated total price. Adding merges into
 * the first line for the book or appends a new line; removing deletes the
 * matching line while iterating over the list; updating overwrites the
 * quantity of the first matching line; computing the total adds
 * price * quantity of every line to the stored total.
 *
 * The pure functions below are the specification of these operations; the
 * class `Cart` runs them in place and is proved against them; the lemmas
 * state what the operations mean for the cart seen as a dictionary from
 * book to quantity, for the sum of quantities and for the price total.
 */
module Carts {
  import opened Wrappers
  import opened Documents
  import opened CartSchemas

  /** Some line of `items` is for `bookId`. */
  predicate HasBook(items: seq<CartItem>, bookId: ObjectId) {
    exists j :: 0 <= j < |items| && items[j].bookId == bookId
  }

  /** The cart invariant: no two lines are for the same book. */
  ghost predicate UniqueBooks(items: seq<CartItem>) {
    forall i, j :: 0 <= i < j < |items| ==> items[i].bookId != items[j].bookId
  }

  /** Every line holds at least one copy. */
  predicate AllPositive(items: seq<CartItem>) {
    forall i :: 0 <= i < |items| ==> items[i].quantity > 0
  }

  /** Every line's book is in the catalogue. */
  predicate AllPriced(items: seq<CartItem>, books: map<ObjectId, Book>) {
    forall i :: 0 <= i < |items| ==> items[i].bookId in books
  }

  /** The position of the first line for `bookId`, or |items| when there is none. */
  function IndexOfBook(items: seq<CartItem>, bookId: ObjectId): (k: nat)
    ensures k <= |items|
    ensures k < |items| <==> HasBook(items, bookId)
    ensures k < |items| ==> items[k].bookId == bookId
    ensures forall j :: 0 <= j < k ==> items[j].bookId != bookId
  {
    if |items| == 0 then 0
    else if items[0].bookId == bookId then 0
    else
      var k := 1 + IndexOfBook(items[1..], bookId);
      assert forall j :: 1 <= j < |items| ==> items[j] == items[1..][j - 1];
      k
  }

  /** The position of the first line equal to `item`, or |items| when there is none. */
  function IndexOfItem(items: seq<CartItem>, item: CartItem): (k: nat)
    ensures k <= |items|
    ensures k < |items| <==> item in items
    ensures k < |items| ==> items[k] == item
    ensures forall j :: 0 <= j < k ==> items[j] != item
  {
    if |items| == 0 then 0
    else if items[0] == item then 0
    else
      var k := 1 + IndexOfItem(items[1..], item);
      assert forall j :: 1 <= j < |items| ==> items[j] == items[1..][j - 1];
      k
  }

  function RemoveAt(items: seq<CartItem>, k: nat): seq<CartItem>
    requires k < |items|
  {
    items[..k] + items[k + 1..]
  }

  // ---------------------------------------------------------------------
  // The operations, as functions of the item list
  // ---------------------------------------------------------------------

  /** Adding: the first line for `bookId` gains `quantity`; without one, a new line is appended. */
  function AddItem(items: seq<CartItem>, bookId: ObjectId, quantity: int): seq<CartItem> {
    var k := IndexOfBook(items, bookId);
    if k < |items| then items[k := CartItem(bookId, items[k].quantity + quantity)]
    else items + [CartItem(bookId, quantity)]
  }

  /** Updating: the first line for `bookId` gets exactly `quantity`; without one, nothing changes. */
  function UpdateItem(items: seq<CartItem>, bookId: ObjectId, quantity: int): seq<CartItem> {
    var k := IndexOfBook(items, bookId);
    if k < |items| then items[k := CartItem(bookId, quantity)] else items
  }

  /** Deleting the line for `bookId`: the reference meaning of removal. */
  function RemoveBook(items: seq<CartItem>, bookId: ObjectId): seq<CartItem> {
    var k := IndexOfBook(items, bookId);
    if k < |items| then RemoveAt(items, k) else items
  }

  /**
   * Removal as the source's loop performs it: a list iterator at position
   * `i`; a line for `bookId` is removed by deleting the first line EQUAL to
   * it, and the iterator then moves on one position, so the line that slid
   * into the current position is never looked at.
   */
  function RemovePass(items: seq<CartItem>, bookId: ObjectId, i: nat): seq<CartItem>
    decreases |items| - i
  {
    if i >= |items| then items
    else if items[i].bookId == bookId then
      RemovePass(RemoveAt(items, IndexOfItem(items, items[i])), bookId, i + 1)
    else RemovePass(items, bookId, i + 1)
  }

  // ---------------------------------------------------------------------
  // Sums over the lines
  // ---------------------------------------------------------------------

  /** What a line contributes to a sum: its quantity, or its price times its quantity. */
  datatype Weight = ByQuantity | ByPrice(books: map<ObjectId, Book>)

  function LineValue(w: Weight, item: CartItem): int {
    match w
    case ByQuantity => item.quantity
    case ByPrice(books) => if item.bookId in books then books[item.bookId].price * item.quantity else 0
  }

  /** The sum of the line values, adding the lines from first to last. */
  function SumBy(items: seq<CartItem>, w: Weight): int {
    if |items| == 0 then 0 else SumBy(items[..|items| - 1], w) + LineValue(w, items[|items| - 1])
  }

  /** The number of copies in the cart. */
  function QuantitySum(items: seq<CartItem>): int {
    SumBy(items, ByQuantity)
  }

  /** The price of the cart: price * quantity summed over the lines. */
  function Total(items: seq<CartItem>, books: map<ObjectId, Book>): int {
    SumBy(items, ByPrice(books))
  }

  lemma {:induction false} SumByConcat(a: seq<CartItem>, b: seq<CartItem>, w: Weight)
    ensures SumBy(a + b, w) == SumBy(a, w) + SumBy(b, w)
    decreases |b|
  {
    if |b| == 0 {
      assert a + b == a;
    } else {
      var init := b[..|b| - 1];
      assert (a + b)[..|a + b| - 1] == a + init;
      SumByConcat(a, init, w);
    }
  }

  lemma Distribute(p: int, a: int, b: int)
    ensures p * (a + b) == p * a + p * b
  {
  }

  lemma SumBySingleton(x: CartItem, w: Weight)
    ensures SumBy([x], w) == LineValue(w, x)
  {
    assert [x][..0] == [];
  }

  /** Replacing one line changes a sum by the difference of the two line values. */
  lemma SumByUpdate(items: seq<CartItem>, k: nat, x: CartItem, w: Weight)
    requires k < |items|
    ensures SumBy(items[k := x], w) == SumBy(items, w) - LineValue(w, items[k]) + LineValue(w, x)
  {
    var pre, post := items[..k], items[k + 1..];
    assert items == pre + [items[k]] + post;
    assert items[k := x] == pre + [x] + post;
    SumByConcat(pre + [items[k]], post, w);
    SumByConcat(pre, [items[k]], w);
    SumByConcat(pre + [x], post, w);
    SumByConcat(pre, [x], w);
    SumBySingleton(items[k], w);
    SumBySingleton(x, w);
  }

  /** Deleting one line lowers a sum by that line's value. */
  lemma SumByRemoveAt(items: seq<CartItem>, k: nat, w: Weight)
    requires k < |items|
    ensures SumBy(RemoveAt(items, k), w) == SumBy(items, w) - LineValue(w, items[k])
  {
    var pre, post := items[..k], items[k + 1..];
    assert items == pre + [items[k]] + post;
    SumByConcat(pre + [items[k]], post, w);
    SumByConcat(pre, [items[k]], w);
    SumByConcat(pre, post, w);
    SumBySingleton(items[k], w);
  }

  lemma SumByAppend(items: seq<CartItem>, x: CartItem, w: Weight)
    ensures SumBy(items + [x], w) == SumBy(items, w) + LineValue(w, x)
  {
    assert (items + [x])[..|items|] == items;
  }

  /** The worked example: 2 copies at 10 and 3 copies at 5 cost 35. */
  lemma TotalExample(a: ObjectId, b: ObjectId, bookA: Book, bookB: Book)
    requires a != b && bookA.price == 10 && bookB.price == 5
    ensures Total([CartItem(a, 2), CartItem(b, 3)], map[a := bookA, b := bookB]) == 35
  {
    var items := [CartItem(a, 2), CartItem(b, 3)];
    var books := map[a := bookA, b := bookB];
    assert items[..1] == [CartItem(a, 2)];
    SumBySingleton(CartItem(a, 2), ByPrice(books));
    assert LineValue(ByPrice(books), CartItem(a, 2)) == 20;
    assert LineValue(ByPrice(books), CartItem(b, 3)) == 15;
  }

  // ---------------------------------------------------------------------
  // The cart as a dictionary from book to quantity
  // ---------------------------------------------------------------------

  /** The quantity per book; for a cart with unique books this loses nothing. */
  function ToMap(items: seq<CartItem>): map<ObjectId, int> {
    if |items| == 0 then map[]
    else ToMap(items[..|items| - 1])[items[|items| - 1].bookId := items[|items| - 1].quantity]
  }

  /** The dictionary has a key exactly for the books that have a line. */
  lemma {:induction false} ToMapKeys(items: seq<CartItem>)
    ensures forall b :: b in ToMap(items) <==> HasBook(items, b)
  {
    if |items| > 0 {
      var n := |items| - 1;
      var init := items[..n];
      ToMapKeys(init);
      forall b ensures b in ToMap(items) <==> HasBook(items, b) {
        if HasBook(items, b) {
          var j :| 0 <= j < |items| && items[j].bookId == b;
          if j < n { assert init[j].bookId == b; }
        }
        if HasBook(init, b) {
          var j :| 0 <= j < |init| && init[j].bookId == b;
          assert items[j].bookId == b;
        }
      }
    }
  }

  /** Rewriting a line without changing its book overwrites that book's entry. */
  lemma {:induction false} ToMapUpdate(items: seq<CartItem>, k: nat, x: CartItem)
    requires UniqueBooks(items) && k < |items| && x.bookId == items[k].bookId
    ensures UniqueBooks(items[k := x])
    ensures ToMap(items[k := x]) == ToMap(items)[x.bookId := x.quantity]
  {
    var r := items[k := x];
    assert forall j :: 0 <= j < |items| ==> r[j].bookId == items[j].bookId;
    var n := |items| - 1;
    var init := items[..n];
    assert r[..n] == if k == n then init else init[k := x];
    if k < n {
      assert UniqueBooks(init);
      ToMapUpdate(init, k, x);
      assert items[n].bookId != x.bookId;
    }
  }

  /** Each line's quantity is the entry of its book. */
  lemma ToMapAt(items: seq<CartItem>, k: nat)
    requires UniqueBooks(items) && k < |items|
    ensures items[k].bookId in ToMap(items) && ToMap(items)[items[k].bookId] == items[k].quantity
  {
    // rewriting a line with itself changes nothing
    ToMapUpdate(items, k, items[k]);
    assert items[k := items[k]] == items;
  }

  /** Appending a line for a new book adds that book's entry. */
  lemma ToMapAppend(items: seq<CartItem>, x: CartItem)
    requires UniqueBooks(items) && !HasBook(items, x.bookId)
    ensures UniqueBooks(items + [x])
    ensures ToMap(items + [x]) == ToMap(items)[x.bookId := x.quantity]
  {
    assert (items + [x])[..|items|] == items;
  }

  /** Deleting a line keeps the books unique. */
  lemma UniqueRemoveAt(items: seq<CartItem>, k: nat)
    requires UniqueBooks(items) && k < |items|
    ensures UniqueBooks(RemoveAt(items, k))
  {
    var r := RemoveAt(items, k);
    assert forall j :: 0 <= j < |r| ==> r[j] == items[if j < k then j else j + 1];
  }

  /** Deleting a line drops its book's entry and keeps the books unique. */
  lemma {:induction false} ToMapRemoveAt(items: seq<CartItem>, k: nat)
    requires UniqueBooks(items) && k < |items|
    ensures UniqueBooks(RemoveAt(items, k))
    ensures ToMap(RemoveAt(items, k)) == ToMap(items) - {items[k].bookId}
  {
    UniqueRemoveAt(items, k);
    var n := |items| - 1;
    if k == n {
      ToMapRemoveLast(items);
    } else {
      var init := items[..n];
      assert UniqueBooks(init);
      assert items == init + [items[n]];
      ToMapRemoveAt(init, k);
      ToMapRemoveInner(init, items[n], k);
    }
  }

  lemma ToMapRemoveLast(items: seq<CartItem>)
    requires UniqueBooks(items) && |items| > 0
    ensures ToMap(RemoveAt(items, |items| - 1)) == ToMap(items) - {items[|items| - 1].bookId}
  {
    var n := |items| - 1;
    var init := items[..n];
    assert RemoveAt(items, n) == init;
    ToMapKeys(init);
    assert !HasBook(init, items[n].bookId);
  }

  /** The inductive step of `ToMapRemoveAt`: deleting a line before a last line `last`. */
  lemma ToMapRemoveInner(init: seq<CartItem>, last: CartItem, k: nat)
    requires k < |init| && last.bookId != init[k].bookId
    requires ToMap(RemoveAt(init, k)) == ToMap(init) - {init[k].bookId}
    ensures ToMap(RemoveAt(init + [last], k)) == ToMap(init + [last]) - {init[k].bookId}
  {
    RemoveAtSnoc(init, k, last);
    ToMapSnoc(RemoveAt(init, k), last);
    ToMapSnoc(init, last);
    RemoveThenSet(ToMap(init), init[k].bookId, last.bookId, last.quantity);
  }

  lemma RemoveAtSnoc(init: seq<CartItem>, k: nat, last: CartItem)
    requires k < |init|
    ensures (init + [last])[k] == init[k]
    ensures RemoveAt(init + [last], k) == RemoveAt(init, k) + [last]
  {
  }

  /** The dictionary of a cart with one more line at the end. */
  lemma ToMapSnoc(items: seq<CartItem>, x: CartItem)
    ensures ToMap(items + [x]) == ToMap(items)[x.bookId := x.quantity]
  {
    assert (items + [x])[..|items|] == items;
  }

  /** Deleting one key and setting another commute. */
  lemma RemoveThenSet(m: map<ObjectId, int>, gone: ObjectId, key: ObjectId, value: int)
    requires gone != key
    ensures (m - {gone})[key := value] == m[key := value] - {gone}
  {
  }

  // ---------------------------------------------------------------------
  // Adding
  // ---------------------------------------------------------------------

  /**
   * Adding to a cart that holds the book raises the quantity of its first
   * line for it and keeps the length and every other line; adding to a cart
   * without it appends one line at the end. The book is held afterwards.
   */
  lemma AddItemShape(items: seq<CartItem>, bookId: ObjectId, quantity: int)
    ensures var r := AddItem(items, bookId, quantity);
      && HasBook(r, bookId)
      && (!HasBook(items, bookId) ==> r == items + [CartItem(bookId, quantity)])
      && (HasBook(items, bookId) ==>
            var k := IndexOfBook(items, bookId);
            && |r| == |items|
            && r[k] == CartItem(bookId, items[k].quantity + quantity)
            && forall j :: 0 <= j < |items| && j != k ==> r[j] == items[j])
  {
    var r := AddItem(items, bookId, quantity);
    var k := IndexOfBook(items, bookId);
    if k < |items| { assert r[k].bookId == bookId; } else { assert r[|items|].bookId == bookId; }
  }

  /**
   * Adding keeps the books unique, and on the dictionary view it adds
   * `quantity` to the book's entry (starting from 0 when absent).
   */
  lemma AddItemAsMap(items: seq<CartItem>, bookId: ObjectId, quantity: int)
    requires UniqueBooks(items)
    ensures UniqueBooks(AddItem(items, bookId, quantity))
    ensures var m := ToMap(items);
            ToMap(AddItem(items, bookId, quantity))
              == m[bookId := (if bookId in m then m[bookId] else 0) + quantity]
  {
    var k := IndexOfBook(items, bookId);
    var m := ToMap(items);
    if k < |items| {
      var x := CartItem(bookId, items[k].quantity + quantity);
      assert AddItem(items, bookId, quantity) == items[k := x];
      ToMapAt(items, k);
      assert bookId in m && m[bookId] == items[k].quantity;
      ToMapUpdate(items, k, x);
    } else {
      var x := CartItem(bookId, quantity);
      assert AddItem(items, bookId, quantity) == items + [x];
      ToMapKeys(items);
      assert bookId !in m;
      ToMapAppend(items, x);
    }
  }

  /**
   * Adding raises the number of copies by exactly `quantity`, and the price
   * of the cart by the book's price times `quantity`.
   */
  lemma AddItemSums(items: seq<CartItem>, bookId: ObjectId, quantity: int, books: map<ObjectId, Book>)
    ensures QuantitySum(AddItem(items, bookId, quantity)) == QuantitySum(items) + quantity
    ensures bookId in books ==>
              Total(AddItem(items, bookId, quantity), books) == Total(items, books) + books[bookId].price * quantity
  {
    var k := IndexOfBook(items, bookId);
    var x := if k < |items| then CartItem(bookId, items[k].quantity + quantity) else CartItem(bookId, quantity);
    if k < |items| {
      SumByUpdate(items, k, x, ByQuantity);
      SumByUpdate(items, k, x, ByPrice(books));
      if bookId in books {
        Distribute(books[bookId].price, items[k].quantity, quantity);
      }
    } else {
      SumByAppend(items, x, ByQuantity);
      SumByAppend(items, x, ByPrice(books));
    }
  }

  /** Adding a positive quantity to a cart of positive lines keeps every line positive. */
  lemma AddItemKeepsPositive(items: seq<CartItem>, bookId: ObjectId, quantity: int)
    requires AllPositive(items) && quantity > 0
    ensures AllPositive(AddItem(items, bookId, quantity))
  {
  }

  // ---------------------------------------------------------------------
  // Updating
  // ---------------------------------------------------------------------

  /**
   * Updating sets the quantity of the first line for the book to exactly
   * `quantity` and keeps every other line; without such a line the cart is
   * unchanged.
   */
  lemma UpdateItemShape(items: seq<CartItem>, bookId: ObjectId, quantity: int)
    ensures var r := UpdateItem(items, bookId, quantity);
      && |r| == |items|
      && (!HasBook(items, bookId) ==> r == items)
      && (HasBook(items, bookId) ==>
            var k := IndexOfBook(items, bookId);
            && r[k] == CartItem(bookId, quantity)
            && forall j :: 0 <= j < |items| && j != k ==> r[j] == items[j])
  {
  }

  /** Updating keeps the books unique and overwrites the book's entry, if it has one. */
  lemma UpdateItemAsMap(items: seq<CartItem>, bookId: ObjectId, quantity: int)
    requires UniqueBooks(items)
    ensures UniqueBooks(UpdateItem(items, bookId, quantity))
    ensures ToMap(UpdateItem(items, bookId, quantity))
              == if bookId in ToMap(items) then ToMap(items)[bookId := quantity] else ToMap(items)
  {
    var k := IndexOfBook(items, bookId);
    ToMapKeys(items);
    if k < |items| {
      ToMapUpdate(items, k, CartItem(bookId, quantity));
    }
  }

  /** Updating changes the price of the cart by the price difference of the one line it rewrites. */
  lemma UpdateItemTotal(items: seq<CartItem>, bookId: ObjectId, quantity: int, books: map<ObjectId, Book>)
    requires HasBook(items, bookId) && bookId in books
    ensures var k := IndexOfBook(items, bookId);
            Total(UpdateItem(items, bookId, quantity), books)
              == Total(items, books) + books[bookId].price * (quantity - items[k].quantity)
  {
    var k := IndexOfBook(items, bookId);
    SumByUpdate(items, k, CartItem(bookId, quantity), ByPrice(books));
    Distribute(books[bookId].price, items[k].quantity, quantity - items[k].quantity);
  }

  // ---------------------------------------------------------------------
  // Removing
  // ---------------------------------------------------------------------

  /** Deleting the book's line keeps the other lines in order and lowers the sums by that line. */
  lemma RemoveBookShape(items: seq<CartItem>, bookId: ObjectId, books: map<ObjectId, Book>)
    ensures !HasBook(items, bookId) ==> RemoveBook(items, bookId) == items
    ensures HasBook(items, bookId) ==>
              var k := IndexOfBook(items, bookId);
              && RemoveBook(items, bookId) == items[..k] + items[k + 1..]
              && QuantitySum(RemoveBook(items, bookId)) == QuantitySum(items) - items[k].quantity
              && Total(RemoveBook(items, bookId), books) == Total(items, books) - LineValue(ByPrice(books), items[k])
  {
    var k := IndexOfBook(items, bookId);
    if k < |items| {
      SumByRemoveAt(items, k, ByQuantity);
      SumByRemoveAt(items, k, ByPrice(books));
    }
  }

  /** Removing a line keeps every remaining line positive. */
  lemma RemoveBookKeepsPositive(items: seq<CartItem>, bookId: ObjectId)
    requires AllPositive(items)
    ensures AllPositive(RemoveBook(items, bookId))
  {
    var k := IndexOfBook(items, bookId);
    if k < |items| {
      var r := RemoveAt(items, k);
      assert forall j :: 0 <= j < |r| ==> r[j] == items[if j < k then j else j + 1];
    }
  }

  /** With unique books, deleting leaves no line for the book and drops its dictionary entry. */
  lemma RemoveBookAsMap(items: seq<CartItem>, bookId: ObjectId)
    requires UniqueBooks(items)
    ensures UniqueBooks(RemoveBook(items, bookId))
    ensures !HasBook(RemoveBook(items, bookId), bookId)
    ensures ToMap(RemoveBook(items, bookId)) == ToMap(items) - {bookId}
  {
    var k := IndexOfBook(items, bookId);
    ToMapKeys(items);
    if k < |items| {
      ToMapRemoveAt(items, k);
      ToMapKeys(RemoveAt(items, k));
    } else {
      assert ToMap(items) - {bookId} == ToMap(items);
    }
  }

  /** A cart without the book is left as it is by the removal loop, uniqueness or not. */
  lemma {:induction false} RemovePassWithoutBook(items: seq<CartItem>, bookId: ObjectId, i: nat)
    requires !HasBook(items, bookId)
    ensures RemovePass(items, bookId, i) == items
    decreases |items| - i
  {
    if i < |items| {
      RemovePassWithoutBook(items, bookId, i + 1);
    }
  }

  /** With unique books, the removal loop deletes exactly the book's line: it agrees with `RemoveBook`. */
  lemma {:induction false} RemovePassOfUnique(items: seq<CartItem>, bookId: ObjectId, i: nat)
    requires UniqueBooks(items) && i <= |items|
    requires forall j :: 0 <= j < i ==> items[j].bookId != bookId
    ensures RemovePass(items, bookId, i) == RemoveBook(items, bookId)
    decreases |items| - i
  {
    if i == |items| {
      RemovePassWithoutBook(items, bookId, i);
    } else if items[i].bookId == bookId {
      assert IndexOfItem(items, items[i]) == i;
      assert IndexOfBook(items, bookId) == i;
      var rest := RemoveAt(items, i);
      assert forall j :: 0 <= j < |rest| ==> rest[j] == items[if j < i then j else j + 1];
      RemovePassWithoutBook(rest, bookId, i + 1);
    } else {
      RemovePassOfUnique(items, bookId, i + 1);
    }
  }

  /**
   * Without uniqueness the removal loop can leave a line for the book
   * behind: of two adjacent lines for it, the second slides into the
   * position just visited and is skipped.
   */
  lemma RemovePassSkipsAdjacentDuplicate(bookId: ObjectId)
    ensures RemovePass([CartItem(bookId, 1), CartItem(bookId, 2)], bookId, 0) == [CartItem(bookId, 2)]
  {
    var items := [CartItem(bookId, 1), CartItem(bookId, 2)];
    assert IndexOfItem(items, items[0]) == 0;
    assert RemoveAt(items, 0) == [CartItem(bookId, 2)];
  }

  // ---------------------------------------------------------------------
  // The cart document
  // ---------------------------------------------------------------------

  /** A user's cart. The owner is fixed at creation: no operation can change it. */
  class Cart {
    const userId: ObjectId
    var cartItems: seq<CartItem>
    var totalPrice: int

    /** A new cart for `userId` holding `cartItems`, with a total of 0. */
    constructor (userId: ObjectId, cartItems: seq<CartItem>)
      ensures this.userId == userId && this.cartItems == cartItems && totalPrice == 0
    {
      this.userId := userId;
      this.cartItems := cartItems;
      totalPrice := 0;
    }

    /** Adds `quantity` copies (1 when omitted) of `bookId`, merging into an existing line. */
    method AddToCart(nameonly bookId: ObjectId, nameonly quantity: int := 1)
      modifies this
      ensures cartItems == AddItem(old(cartItems), bookId, quantity)
      ensures totalPrice == old(totalPrice)
    {
      var i := 0;
      while i < |cartItems|
        invariant 0 <= i <= |cartItems| && cartItems == old(cartItems)
        invariant forall j :: 0 <= j < i ==> cartItems[j].bookId != bookId
      {
        if cartItems[i].bookId == bookId {
          cartItems := cartItems[i := CartItem(bookId, cartItems[i].quantity + quantity)];
          return;
        }
        i := i + 1;
      }
      cartItems := cartItems + [StoredCartItem(bookId, Some(quantity))];
    }

    /** Removes the lines for `bookId`, iterating and deleting as the source's loop does. */
    method RemoveFromCart(nameonly bookId: ObjectId)
      modifies this
      ensures cartItems == RemovePass(old(cartItems), bookId, 0)
      ensures totalPrice == old(totalPrice)
    {
      if |cartItems| == 0 {
        return;
      }
      var i := 0;
      while i < |cartItems|
        invariant RemovePass(cartItems, bookId, i) == RemovePass(old(cartItems), bookId, 0)
        invariant totalPrice == old(totalPrice)
        decreases |cartItems| - i
      {
        if cartItems[i].bookId == bookId {
          var j := IndexOfItem(cartItems, cartItems[i]);
          cartItems := RemoveAt(cartItems, j);
        }
        i := i + 1;
      }
    }

    /** Sets the quantity of the line for `bookId`; a cart without one is left as it is. */
    method UpdateCartItems(nameonly bookId: ObjectId, nameonly quantity: int)
      modifies this
      ensures cartItems == UpdateItem(old(cartItems), bookId, quantity)
      ensures totalPrice == old(totalPrice)
    {
      if |cartItems| == 0 {
        return;
      }
      var i := 0;
      while i < |cartItems|
        invariant 0 <= i <= |cartItems| && cartItems == old(cartItems)
        invariant forall j :: 0 <= j < i ==> cartItems[j].bookId != bookId
      {
        if cartItems[i].bookId == bookId {
          cartItems := cartItems[i := CartItem(bookId, quantity)];
          return;
        }
        i := i + 1;
      }
    }

    /**
     * Adds price * quantity of every line to the stored total. A line whose
     * book is missing from the catalogue makes the computation fail before
     * anything is saved: the result is false and the cart is unchanged.
     */
    method CalculateTotalPrice(books: map<ObjectId, Book>) returns (ok: bool)
      modifies this
      ensures cartItems == old(cartItems)
      ensures ok <==> AllPriced(cartItems, books)
      ensures totalPrice == if ok then old(totalPrice) + Total(cartItems, books) else old(totalPrice)
    {
      var total := totalPrice;
      var i := 0;
      while i < |cartItems|
        invariant 0 <= i <= |cartItems|
        invariant AllPriced(cartItems[..i], books)
        invariant total == totalPrice + Total(cartItems[..i], books)
      {
        var item := cartItems[i];
        if item.bookId !in books {
          return false;
        }
        assert cartItems[..i + 1][..i] == cartItems[..i];
        total := total + books[item.bookId].price * item.quantity;
        i := i + 1;
      }
      assert cartItems[..i] == cartItems;
      totalPrice := total;
      ok := true;
    }
  }
}
