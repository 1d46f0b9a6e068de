/**
 * End-to-end runs of the user and cart routes, each stated for every
 * store that satisfies its invariant: the replies of later requests follow
 * from the state the earlier ones left behind.
 */
module Scenarios {
  import opened Wrappers
  import opened Documents
  import opened Helpers
  import opened UserSchemas
  import opened UserRoutes
  import opened CartSchemas
  import opened Carts
  import opened CartRoutes

  /**
   * Register an account, activate it with the token it was given, log in,
   * and activate once more: the login succeeds and the second activation
   * finds no token.
   */
  method RegisterActivateLogin(store: AccountStore, email: string, password: string, now: Timestamp, token: string)
    returns (registered: Reply, activated: Reply, login: Reply, again: Reply)
    requires store.Valid() && token !in store.tokens
    requires PasswordLengthOk(password) && UserWithEmail(store.users, email).None?
    modifies store
    ensures registered.status == HTTP_201_CREATED
    ensures activated == Succeeded(JStr("User activated."), HTTP_200_OK)
    ensures login == Reply(HTTP_200_OK, AccessTokenJson(store.createAccessToken(email, now + ACCESS_TOKEN_LIFETIME)))
    ensures again == BadRequest("Invalid token.")
  {
    ghost var id := store.nextId;
    registered := store.Register(email, password, password, now, token);
    assert store.tokens[token].userId == id && store.tokens[token].expiresAt == StoredTime(now + ONE_DAY);
    activated := store.ActivateUser(token, now);
    assert store.users[id].email == email && store.users[id].isActive;
    assert store.users[id].hashedPassword == store.hashPassword(password);
    assert UserWithEmail(store.users, email) == Some(id);
    login := store.GetAccessToken(email, password, now);
    again := store.ActivateUser(token, now);
  }

  /** A second registration under the same email is refused and leaves the first account as it was. */
  method RegisterTwice(store: AccountStore, email: string, password: string, otherPassword: string,
                       now: Timestamp, later: Timestamp, token: string, otherToken: string)
    returns (first: Reply, second: Reply)
    requires store.Valid() && token !in store.tokens && otherToken !in store.tokens && token != otherToken
    requires PasswordLengthOk(password) && PasswordLengthOk(otherPassword)
    requires UserWithEmail(store.users, email).None?
    modifies store
    ensures first.status == HTTP_201_CREATED
    ensures second == BadRequest("User with email " + email + " already exists.")
    ensures UserWithEmail(store.users, email).Some?
    ensures store.users[UserWithEmail(store.users, email).value].hashedPassword == store.hashPassword(password)
  {
    ghost var id := store.nextId;
    first := store.Register(email, password, password, now, token);
    assert UserWithEmail(store.users, email) == Some(id);
    second := store.Register(email, otherPassword, otherPassword, later, otherToken);
  }

  /**
   * Asking twice for an activation token before it expires hands out the
   * same token both times, the second time with 200.
   */
  method ReissueTwiceBeforeExpiry(store: AccountStore, email: string, now: Timestamp, later: Timestamp,
                                  token: string, otherToken: string)
    returns (first: Reply, second: Reply)
    requires store.Valid() && token !in store.tokens && otherToken !in store.tokens && token != otherToken
    requires UserWithEmail(store.users, email).Some?
    requires now <= later < StoredTime(now + ONE_DAY)
    requires forall t :: t in store.tokens ==> store.tokens[t].expiresAt > later
    modifies store
    ensures first.status == HTTP_200_OK || first.status == HTTP_201_CREATED
    ensures second.status == HTTP_200_OK
    ensures Get(first.body, "detail") == Get(second.body, "detail")
  {
    first := store.GetActivationToken(email, now, token);
    second := store.GetActivationToken(email, later, otherToken);
  }

  /**
   * An expired token is refused and deleted: a second attempt with it,
   * however early, no longer finds it.
   */
  method ExpiredTokenIsGone(store: AccountStore, token: string, now: Timestamp, earlier: Timestamp)
    returns (first: Reply, second: Reply)
    requires store.Valid() && token in store.tokens && store.tokens[token].expiresAt < now
    modifies store
    ensures first == BadRequest("Token has expired.")
    ensures second == BadRequest("Invalid token.")
  {
    first := store.ActivateUser(token, now);
    second := store.ActivateUser(token, earlier);
  }

  /**
   * Asking for a new activation token once the old one has expired hands
   * out a different token, and the old one no longer activates anything.
   */
  method ReissueAfterExpiry(store: AccountStore, email: string, now: Timestamp, stale: string, token: string)
    returns (reissued: Reply, activated: Reply)
    requires store.Valid() && token !in store.tokens
    requires stale in store.tokens && store.tokens[stale].expiresAt <= now
    requires UserWithEmail(store.users, email) == Some(store.tokens[stale].userId)
    modifies store
    ensures reissued == Succeeded(TokenJson(token), HTTP_201_CREATED) && token != stale
    ensures activated == BadRequest("Invalid token.")
  {
    assert TokenHeldBy(store.tokens, store.tokens[stale].userId) == Some(stale);
    reissued := store.GetActivationToken(email, now, token);
    assert stale !in store.tokens;
    activated := store.ActivateUser(stale, now);
  }

  /**
   * A caller without a cart adds the same book twice and then reads the
   * cart: it holds one line with the two quantities added up, and the
   * total is that quantity times the price.
   */
  method AddTwiceThenGet(store: CartStore, userId: ObjectId, bookId: ObjectId, first: int, second: int)
    returns (added: Reply, addedAgain: Reply, got: Reply)
    requires store.Valid() && userId !in store.carts && bookId in store.books
    requires first > 0 && second > 0
    modifies store, store.carts.Values
    ensures added == CartUpdated && addedAgain == CartUpdated
    ensures userId in store.State() && store.State()[userId].items == [CartItem(bookId, first + second)]
    ensures got == Reply(HTTP_200_OK, CartJson([CartItem(bookId, first + second)],
                                               store.books[bookId].price * (first + second)))
  {
    var items := [CartItem(bookId, first + second)];
    assert AddItem([], bookId, first) == [CartItem(bookId, first)];
    assert AddItem([CartItem(bookId, first)], bookId, second) == items;
    added := store.AddBookToCart(userId, RawCartItem(bookId, Some(first)));
    assert store.State()[userId] == CartState([CartItem(bookId, first)], 0);
    addedAgain := store.AddBookToCart(userId, RawCartItem(bookId, Some(second)));
    assert store.State()[userId] == CartState(items, 0);
    SumBySingleton(items[0], ByPrice(store.books));
    got := store.GetCart(userId);
  }

  /**
   * Reading a cart twice runs the total computation twice, and the stored
   * total is never reset: the second read reports twice the cart's price.
   */
  method GetCartTwice(store: CartStore, userId: ObjectId, items: seq<CartItem>)
    returns (first: Reply, second: Reply)
    requires store.Valid() && userId in store.State() && store.State()[userId] == CartState(items, 0)
    requires AllPriced(items, store.books)
    modifies store.carts.Values
    ensures first == Reply(HTTP_200_OK, CartJson(items, Total(items, store.books)))
    ensures second == Reply(HTTP_200_OK, CartJson(items, 2 * Total(items, store.books)))
  {
    ghost var total := Total(items, store.books);
    first := store.GetCart(userId);
    ghost var afterFirst := store.State();
    assert userId in afterFirst && afterFirst[userId] == CartState(items, total);
    second := store.GetCart(userId);
    assert store.State()[userId] == CartState(items, total + total);
  }
}
