# Bookshop carts and accounts, modelled in Dafny

This project models the core of a small bookshop web service. The service
is a FastAPI application over a MongoDB document store. The model covers
two stateful parts and the small pure pieces they use:

- **The cart engine.** Each user has one cart. A cart is a list of
  `(book_id, quantity)` lines plus a stored `total_price`. The `Cart`
  document adds, removes and updates lines in place and accumulates the
  total (`models/carts.py`). The cart routes guard these operations:
  the book must exist, the cart must exist, and adding creates the cart
  on first use (`routes/carts.py`).
- **The account and activation-token lifecycle** (`routes/users.py`):
  - registration stores an inactive user with a one-day activation token;
  - a token is reissued or reused, and activation consumes it;
  - login checks the credentials and the active flag;
  - password change and logout write `"bl_" + token` to a denylist.
- **The request schemas** (`schemas/carts.py`, `schemas/users.py`) and
  **the response envelopes** (`utils/helpers.py`) that these handlers use.

Layout, one module per file:

| file | module | contents |
|---|---|---|
| `wrappers.dfy` | `Wrappers` | `Option` and `Result` |
| `documents.dfy` | `Documents` | the stored records: `Book`, `User`, `ActivationToken` |
| `helpers.dfy` | `Helpers` | JSON values, the error and success envelopes, lookup-or-404, and what the client receives (`Reply`) |
| `cart_schemas.dfy` | `CartSchemas` | cart item validation and defaults |
| `user_schemas.dfy` | `UserSchemas` | password length and confirmation rules |
| `carts.dfy` | `Carts` | the line-list operations as functions, their properties, and the `Cart` class whose methods are proved against those functions |
| `cart_routes.dfy` | `CartRoutes` | `CartStore`, a class over `map<ObjectId, Cart>` with one method per cart route |
| `user_routes.dfy` | `UserRoutes` | `AccountStore`, a class over the user, token and denylist stores with one method per user route |
| `scenarios.dfy` | `Scenarios` | multi-request runs over the stores |

Modelling conventions:

- **Handlers.** Each handler is one atomic method on its store. It returns
  the `Reply` the client sees: a status code and a JSON body.
  - A raised `HTTPException` becomes `{"detail": detail}`.
  - A request body that fails validation becomes 422, FastAPI's default,
    before the handler body runs.
  - An exception the handler does not catch becomes 500. Examples are an
    `AttributeError` on a missing document and an `UnboundLocalError`.
- **Cart contents and totals.** Each cart method states its new list as a
  function of the old one (`AddItem`, `UpdateItem`, `RemovePass`) and its
  new total with `Total`. Those functions are then related to a dictionary
  view of the cart (`ToMap`: book → quantity) and to quantity and price
  sums.
- **Invariants.** Store invariants are `Valid()` predicates that every
  handler preserves:
  - for carts: each stored cart belongs to the user it is stored under;
  - for accounts: the email index is unique, tokens belong to stored
    users, and each user holds at most one token.
  - The cart invariant "no two lines share a book and every quantity is
    positive" is `WellFormed`. Every cart handler except `CreateCart`
    preserves it.
- **Time, randomness and hashing.**
  - Time is an integer count of microseconds, passed in as `now`. The
    document store keeps dates to the millisecond, so a stored time is
    read back truncated (`Documents.StoredTime`).
  - The random activation token is passed in as `freshToken`.
  - Password hashing and checking are function values. The only
    assumption about them is that a password checks against its own hash
    (`Sound`).

Behaviour of the code worth knowing, which the model follows:

- Reissuing a token for an unknown email fails with 500. The error
  branch at routes/users.py:68-72 was meant to answer 400, but its
  message reads a variable that has not been assigned yet.
- Updating a book that has no line in the cart replies 200 and changes
  nothing.
- Removing from a missing cart replies 404 "Cart not found".
- Deleting a missing cart fails with 500.
- Reading a cart adds the cart's price to the stored total, which is
  never reset. Two reads therefore report twice the price
  (`Scenarios.GetCartTwice`).
- Invalid request bodies are answered with 422 by the framework before
  the handler runs.
- Creating a cart for a caller who has none inserts the cart and then
  fails with 500: the 201 response at routes/carts.py:31-34 is built from
  a plain-mode dump that still holds the document ids as id objects,
  which the JSON encoder refuses. A second request returns the stored
  cart with 200.
- `create_cart` does not check that its lines have distinct books. On
  such a cart the removal loop can leave a line behind: it deletes the
  first equal line while iterating, which skips the next one
  (`Carts.RemovePassSkipsAdjacentDuplicate`).

## Model

| member | source | states |
|---|---|---|
| Helpers.ErrorResponse | utils/helpers.py:22-30 | the exception carries the given status code and the detail `{"status": "error", "message": message}`, with exactly those two keys |
| Helpers.SuccessResponse | utils/helpers.py:33-41 | the response carries content `{"status": "success", "detail": message}`; the status code defaults to 200 |
| Helpers.GetObjectOr404 | utils/helpers.py:10-19 | succeeds exactly when the key is stored, returning the stored object unchanged; otherwise fails with 404 and the message "<TypeName> not found" in the error envelope |
| CartSchemas.ParseCartItem | schemas/carts.py:5-7 | an incoming item is accepted exactly when its quantity is omitted or positive; an omitted quantity becomes 1; a rejection names the `quantity` field |
| CartSchemas.StoredItemsAreUnconstrained | schemas/carts.py:14-16 | a stored item keeps a non-positive quantity that the request schema rejects, and defaults to the same quantity 1 |
| CartSchemas.ParseItems | schemas/carts.py:19-20 | a list of items is accepted exactly when every item is, and the result is the items parsed one by one, in order |
| CartSchemas.ParseCreateCart | schemas/carts.py:19-24 | an omitted item list becomes the empty list; the body is accepted exactly when every listed item passes the positive-quantity rule, and then each line keeps its book and its quantity as sent, or 1 when omitted |
| UserSchemas.CheckLength | schemas/users.py:7 | a password field passes exactly when it is 8 to 32 characters long; a failure names the field |
| UserSchemas.ParseBaseUser | schemas/users.py:5-7 | the registration body's email and password fields are accepted exactly when the password length is 8..32, and come back unchanged |
| UserSchemas.ParseCreateUser | schemas/users.py:10-21 | a registration is accepted exactly when both passwords are 8..32 long and equal; equal-length-valid but different passwords fail with "passwords do not match"; an accepted body comes back unchanged |
| UserSchemas.CheckPasswordsMatch | schemas/users.py:13-21 | the validator rejects exactly the bodies whose two passwords differ and returns the others unchanged |
| UserSchemas.ParseChangePassword | schemas/users.py:35-37 | a password change is accepted exactly when both passwords are 8..32 long |
| UserSchemas.SameOldAndNewPasswordPassesSchema | schemas/users.py:35-37 | the schema does not require the new password to differ from the old one |
| Carts.IndexOfBook | models/carts.py:20-21 | the loop's stopping point: the first line for the book, or the end of the list when there is none |
| Carts.IndexOfItem | models/carts.py:33 | `list.remove` deletes the first line equal to the given one |
| Carts.AddItemShape | models/carts.py:20-25 | adding a book already in the cart raises that line's quantity by `quantity` and keeps the length and every other line; adding a new book appends one line at the end |
| Carts.AddItemAsMap | models/carts.py:16-26 | with distinct books, adding keeps books distinct, and as a dictionary the cart gains `quantity` on that book (starting from 0) |
| Carts.AddItemSums | models/carts.py:16-26 | adding raises the sum of quantities by exactly `quantity`, and the priced total by price × quantity |
| Carts.AddItemKeepsPositive | models/carts.py:16-26 | adding a positive quantity keeps every line positive |
| Carts.UpdateItemShape | models/carts.py:36-43 | updating sets the first matching line to exactly `quantity` and keeps every other line; with no match or an empty cart nothing changes |
| Carts.UpdateItemAsMap | models/carts.py:36-43 | with distinct books, updating keeps books distinct and, as a dictionary, overwrites the book's quantity only if the book is present |
| Carts.UpdateItemTotal | models/carts.py:36-43 | updating a present line changes the priced total by price × (new − old quantity) |
| Carts.RemoveBookShape | models/carts.py:28-34 | deleting the book's line keeps the others in order and lowers the sums by that line; an absent book leaves the cart unchanged |
| Carts.RemoveBookAsMap | models/carts.py:28-34 | with distinct books, removal keeps books distinct, leaves no line for the book, and as a dictionary drops exactly that key |
| Carts.RemoveBookKeepsPositive | models/carts.py:28-34 | removal keeps every remaining line positive |
| Carts.RemovePassWithoutBook | models/carts.py:28-34 | the source's remove loop leaves a cart without the book unchanged |
| Carts.RemovePassOfUnique | models/carts.py:28-34 | with distinct books, the source's remove loop is exactly deletion of the book's line |
| Carts.RemovePassSkipsAdjacentDuplicate | models/carts.py:31-33 | with two adjacent lines for one book, the remove loop deletes only the first |
| Carts.TotalExample | models/carts.py:45-49 | lines (price 10, qty 2) and (price 5, qty 3) total 35 |
| Carts.Cart.constructor | models/carts.py:8-11 | a new cart belongs to its user, holds the given lines, and has total 0 |
| Carts.Cart.AddToCart | models/carts.py:16-26 | the in-place loop leaves exactly `AddItem` of the old lines, with quantity 1 when omitted; the total is untouched |
| Carts.Cart.RemoveFromCart | models/carts.py:28-34 | the delete-while-iterating loop leaves exactly `RemovePass` of the old lines; the total is untouched |
| Carts.Cart.UpdateCartItems | models/carts.py:36-43 | the in-place loop leaves exactly `UpdateItem` of the old lines, with no positivity check; the total is untouched |
| Carts.Cart.CalculateTotalPrice | models/carts.py:45-49 | succeeds exactly when every line's book exists; then the stored total becomes its previous value plus Σ price × quantity; otherwise nothing changes; the lines never change |
| CartRoutes.AddKeepsWellFormed | routes/carts.py:47-50 | adding a positive quantity to a new or existing cart keeps every cart free of duplicate books and non-positive lines |
| CartRoutes.RemoveKeepsWellFormed | routes/carts.py:64-69 | the remove loop keeps every cart well formed |
| CartRoutes.UpdateKeepsWellFormed | routes/carts.py:77-87 | setting a positive quantity keeps every cart well formed |
| CartRoutes.CartStore.CreateCart | routes/carts.py:23-34 | an invalid body gives 422; an existing cart is returned unchanged and nothing is inserted; otherwise a cart for the caller with the given lines and total 0 is inserted, and rendering the 201 response fails, so the reply is 500 with the cart stored |
| CartRoutes.CartStore.AddBookToCart | routes/carts.py:37-51 | an unknown book gives 404 and no cart changes; otherwise the caller's cart, created empty if missing, receives `AddItem`, the reply is 200 "cart updated", and well-formedness is kept |
| CartRoutes.CartStore.RemoveBookFromCart | routes/carts.py:54-70 | the book is checked before the cart (404 each); success is 204 with the cart's lines replaced by the source's remove loop, which with distinct books is plain deletion |
| CartRoutes.CartStore.UpdateCartItem | routes/carts.py:73-88 | the cart is checked before the book (404 each); success is 200 with `UpdateItem` applied, so a book absent from the cart changes nothing |
| CartRoutes.CartStore.GetCart | routes/carts.py:91-99 | no cart gives 404; a line whose book is gone fails with 500 and nothing saved; otherwise the total grows by the cart's price and the cart is returned with 200 |
| CartRoutes.CartStore.DeleteCart | routes/carts.py:102-106 | the caller's cart is removed with 204; with no cart the handler fails (500) and nothing changes |
| Documents.StoredTime | models/tokens.py:9 | a stored date keeps whole milliseconds: the value read back is the largest multiple of 1000 µs not after the time written |
| UserRoutes.ClientSeesEnvelopes | utils/helpers.py:22-41 | a raised error reaches the client nested under `detail`, with `{"status": "error", "message"}` inside and no top-level `status`; a returned success carries `status: "success"` and `detail` at the top level |
| UserRoutes.StoredExpiryIsAlmostOneDay | routes/users.py:43-46 | a token written to expire at `now` + one day is stored less than a millisecond earlier, and activation refuses it exactly after that stored instant |
| UserRoutes.DenylistKey | routes/users.py:170-172 | the denylist key is `"bl_"` followed by the bearer token |
| UserRoutes.DenylistKeyInjective | routes/users.py:186-188 | two bearer tokens share a denylist key only if they are equal |
| UserRoutes.ExpiryBoundary | routes/users.py:76-128 | at `expires_at == now` activation still accepts the token while reissue already replaces it; at any other instant the two agree on whether it has expired |
| UserRoutes.UserWithEmail | models/users.py:8 | the unique email index: the user stored under an email, or none when no user has it |
| UserRoutes.RegisterKeepsIndexed | routes/users.py:38-47 | storing a new user under a fresh id with a fresh token keeps the user and token stores indexed, and the new user then holds exactly that token |
| UserRoutes.ReissueKeepsIndexed | routes/users.py:81-86 | giving a user without a token a fresh one keeps the token store indexed, and the user then holds exactly that token |
| UserRoutes.NoTokenAfterDelete | routes/users.py:81 | deleting the token a user holds leaves the user with none |
| UserRoutes.DeleteKeepsIndexed | routes/users.py:129 | deleting a token keeps the token store indexed |
| UserRoutes.UpdateUserKeepsIndexed | routes/users.py:134-136 | changing a user's flag or hash keeps both stores indexed |
| UserRoutes.TokenHeldAfterInsert | routes/users.py:82-86 | a user with no token who is given one holds exactly that token |
| UserRoutes.AccountStore.GetUserByEmail | routes/users.py:33 | the lookup returns the user registered under the email, or none |
| UserRoutes.AccountStore.GetTokenForUser | routes/users.py:73 | the lookup returns the user's token, or none when the user holds no token |
| UserRoutes.AccountStore.Authenticate | routes/users.py:104 | a user is returned exactly when the email is registered and the password checks against its stored hash |
| UserRoutes.AccountStore.Register | routes/users.py:25-59 | an invalid body gives 422; an existing email gives 400 and creates no user and no token; otherwise an inactive user with the hashed password and one token expiring one day later (both times stored to the millisecond) are stored, with 201 |
| UserRoutes.AccountStore.GetActivationToken | routes/users.py:62-96 | an unknown email fails with 500 and creates no token; an unexpired token is returned with 200 and nothing changes; otherwise the old token is deleted and a new one expiring one day later, to the millisecond, is stored and returned with 201, and the user then holds exactly that token |
| UserRoutes.AccountStore.ActivateUser | routes/users.py:119-141 | an unknown token gives 400 "Invalid token." and nothing changes; an expired token is deleted and gives 400 with the user unchanged; otherwise the user becomes active, the token is deleted, and the reply is 200; the token is gone afterwards in every case |
| UserRoutes.AccountStore.GetAccessToken | routes/users.py:99-116 | bad credentials give 400, then an inactive user gives 400; an active user receives `{access_token, token_type: "bearer"}` with a token for the email expiring 30 minutes later; nothing is stored |
| UserRoutes.AccountStore.ChangePassword | routes/users.py:150-179 | the old password is checked before `old == new`, and either failure gives 400 with hash and denylist unchanged; with the expiry setting missing or not positive the handler fails with 500 before any write; otherwise `"bl_" + token` joins the denylist and the hash is replaced |
| UserRoutes.AccountStore.Logout | routes/users.py:182-191 | only `"bl_" + token` joins the denylist, with 200, or the handler fails with 500 when the expiry setting is missing or not positive |
| Scenarios.RegisterActivateLogin | routes/users.py:25-141 | register, activate with the token, log in: the login succeeds; activating again with the same token gives 400 "Invalid token." |
| Scenarios.RegisterTwice | routes/users.py:33-59 | a second registration with the same email gives 400 and the first account keeps its password hash |
| Scenarios.ReissueTwiceBeforeExpiry | routes/users.py:73-80 | two token requests before expiry hand out the same token, the second with 200 |
| Scenarios.ReissueAfterExpiry | routes/users.py:73-127 | a request after expiry hands out a different token with 201, and the old token no longer activates anything |
| Scenarios.ExpiredTokenIsGone | routes/users.py:122-133 | an expired token is refused and cannot be used again |
| Scenarios.AddTwiceThenGet | routes/carts.py:37-99 | adding one book twice to a new cart gives a single line with the summed quantity, and reading the cart reports price × that quantity |
| Scenarios.GetCartTwice | routes/carts.py:91-99 | reading a cart twice reports twice its price, because the stored total accumulates |

## Left out

- Authentication: `get_current_user`, JWT encoding and decoding, and the
  `get_me` route (utils/security.py, routes/users.py:144-147) are not part
  of this model.
  - The caller is a `userId` parameter that is assumed to be resolved.
  - The access token is an opaque function of the email and the expiry.
  - The bearer token is passed in as a parameter instead of being read
    from the `Authorization` header.
  - The denylist is written but never read in the modelled code, so no
    revocation check is modelled.
- `UserRoutes.AccountStore.ChangePassword` and `Logout` do not model the
  Redis expiry of a denylist entry; the denylist is a plain set. The
  setting that the expiry needs is a constructor parameter
  (`jwtExpiryMinutes`). The service's settings as shown do not define it,
  so with them both handlers reply 500. The store refuses an expiry of
  zero seconds or less, so a setting of zero minutes or less also gives
  500 with nothing written.
- `UserRoutes.AccountStore.GetUserByEmail`, `GetTokenForUser` and
  `Authenticate` model `User.get_user_by_email`,
  `ActivationToken.get_token_for_user` and `User.authenticate`. The
  document classes in models/users.py and models/tokens.py define fields
  only, so as written those calls would fail (500) in register, reissue
  and login. The model gives them the meaning their call sites expect:
  a lookup through the email index, a lookup by user id, and a lookup
  whose stored hash must check against the password.
- `UserRoutes.AccountStore.Register` and `GetActivationToken` require the
  freshly generated activation token to differ from every stored one.
  Token generation (utils/tokens.py) is not part of this model.
- Argon2 hashing is a pair of function values with one assumption: a
  password checks against its own hash. Random salts are not modelled,
  so hashing the same password twice gives the same value.
- Email validation and normalisation (`EmailStr`) are not modelled; an
  email is any string. When a schema has several failing fields, only the
  first is reported.
- Sending activation emails (a background task) is left out; it does not
  affect the stored state.
- Document ids in response bodies (`_id` in `OutputCartSchema`) and the
  optional `headers` argument of the envelope builders are left out.
- Stored integers: the document store keeps `quantity` and `total_price`
  as 64-bit integers, and a value beyond 2^63 − 1 makes `insert()` or
  `save()` fail (500, nothing stored). The model's integers are
  unbounded, so `Carts.Cart.AddToCart`, `Carts.Cart.UpdateCartItems`,
  `Carts.Cart.CalculateTotalPrice`, `CartRoutes.CartStore.CreateCart`,
  `CartRoutes.CartStore.AddBookToCart`, `CartRoutes.CartStore.UpdateCartItem`
  and `CartRoutes.CartStore.GetCart` succeed where the service would
  answer 500 with such a value.
- `Helpers.Unprocessable`: the 422 body is simplified to one error whose
  `loc` is the field name; the framework sends a list of errors, each
  with a `loc` path (such as `["body", "quantity"]`), a `type` and the
  rejected `input`. The contract states the status only.
- Concurrency: each request is one atomic step, so lost updates between
  concurrent cart requests are not modelled.
- `Carts.Cart.CalculateTotalPrice` models a line whose book has left the
  catalogue as an aborted call with nothing saved. The catalogue is a map
  fixed for the store.
- routes/books.py and routes/authors.py (catalogue CRUD, uploads), the
  database, Redis and mail wiring, and app.py are outside this model.
