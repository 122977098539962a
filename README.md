# QKart cart service in Dafny

This project models the cart and checkout service of the QKart e-commerce
backend (`src/services/cart.service.js`). Each user has one cart, filed under
the user's email. A cart holds line items, each a product and a quantity. The
service has five operations:

- `getCartByUser` returns the user's cart, or fails with 404.
- `addProductToCart` creates the cart if it is missing, then refuses a
  duplicate, then refuses a product the catalog lacks. Otherwise it pushes
  the item.
- `updateProductInCart` refuses a missing cart, then a product the catalog
  lacks, then a product the cart lacks. Otherwise it overwrites the item's
  quantity.
- `deleteProductFromCart` refuses a missing cart, then a product the cart
  lacks. Otherwise it splices the item out.
- `checkout` totals `cost * quantity`. It refuses a zero total, then an unset
  address, then a wallet that cannot cover the total. Otherwise it debits the
  wallet and empties the cart.

Two files, one module each:

- `carts.dfy`, module `Carts`, is the value-level model. It defines products,
  line items, the service's errors (HTTP status and message, word for word)
  and `FindIndex` (the `findIndex` search). It defines `Total` (the checkout
  sum) and one function per operation on a cart's item list: `AddItem`,
  `UpdateItem`, `DeleteItem` and `CheckoutOf`. The lemmas about those
  functions state what the service promises.
- `cart_service.dfy`, module `CartService`, is the imperative service. `Cart`
  is the cart document, a class whose `cartItems` the methods change in
  place. `User` holds the user's `walletMoney` and `address`; checkout
  debits the wallet in place. `CartStore` holds the product catalog and a map
  from email to cart object, and has the five operations as methods. Each
  method's postcondition gives the whole new state in terms of the old one
  and the `Carts` function for that operation. Every method keeps the
  invariant `Valid()`: each cart is filed under its own email and holds each
  product at most once. The duplicate search of `addProductToCart` and the
  total loop of `checkout` are the methods `HasProduct` and `SumCosts`,
  proved against `InCart` and `Total`.

The checks run in the order the code runs them. `addProductToCart` checks
for a duplicate before it looks the product up in the catalog, so a product
already in the cart is refused as a duplicate even when the catalog lacks
it. It also creates the cart before either check, so a refused add can leave a new
empty cart behind. `updateProductInCart` looks the product up in the catalog
before it searches the cart. Errors carry the code's own status codes and
messages. A missing cart is 400 "User does not have a cart. Use POST to
create cart and add a product" for update, and 400 "User does not have a
cart." for delete. It is not a 404 in either case.

`checkout` gets the cart through `getCartByUser`, so a user without a cart
gets that operation's 404 "User does not have a cart". The later `if(!cart)`
branch (lines 200-202) cannot be reached. `checkout` tests the address twice,
through `user.hasSetNonDefaultAddress()` and through
`user.address === config.default_address`. Both tests raise the same error,
so the model has one test, `address == DefaultAddress`. The default address
is `"ADDRESS_NOT_SET"`, the value a fresh user record shows
(`src/controllers/user.controller.js:24`).

## Model

| member | source | states |
|---|---|---|
| `Carts.FindIndex` | src/services/cart.service.js:134 | The result is -1 exactly when no item has the product. Otherwise it is the index of an item with that product, and no earlier item has it. |
| `CartService.HasProduct` | src/services/cart.service.js:64-70 | The duplicate search returns true exactly when some item of the cart has the product. |
| `CartService.SumCosts` | src/services/cart.service.js:204-207 | The loop's total equals `Total`, the sum of `cost * quantity` over the items from first to last. |
| `CartService.Cart.constructor` | src/services/cart.service.js:59 | A created cart carries the user's email and has no items. |
| `CartService.CartStore.GetCartByUser` | src/services/cart.service.js:19-25 | The call succeeds exactly when a cart is filed under the user's email, and then returns that cart, whose email is the user's. Otherwise it fails with 404 "User does not have a cart". |
| `CartService.CartStore.FindOrCreateCart` | src/services/cart.service.js:53-60 | Afterwards the user has a cart. An existing cart is returned unchanged. A missing one is created fresh and empty. No other cart changes. |
| `CartService.CartStore.AddProductToCart` | src/services/cart.service.js:52-91 | Afterwards the user always has a cart, and it is the old cart if there was one. Its items are those `AddItem` gives on success and the old items (or none) on failure. The result is the cart or `AddItem`'s error. No other cart changes, and the store stays `Valid`. |
| `CartService.CartStore.AddToCart` | src/services/cart.service.js:64-87 | On an existing cart, the items become `AddItem`'s result on success and stay unchanged on failure. The result is the cart or that error, and no other cart changes. |
| `CartService.CartStore.UpdateProductInCart` | src/services/cart.service.js:117-147 | With no cart, the call fails with 400 "User does not have a cart. Use POST…" and nothing changes. Otherwise the items become `UpdateItem`'s result on success and stay unchanged on failure. The result is the cart or that error, no other cart changes, and the store stays `Valid`. |
| `CartService.CartStore.DeleteProductFromCart` | src/services/cart.service.js:166-190 | With no cart, the call fails with 400 "User does not have a cart." and nothing changes. Otherwise the items become `DeleteItem`'s result on success and stay unchanged on failure. No other cart changes, and the store stays `Valid`. |
| `CartService.CartStore.Checkout` | src/services/cart.service.js:193-242 | With no cart, the call fails with 404 and nothing changes. Otherwise it succeeds exactly when `CheckoutOf` does. On failure the error is `CheckoutOf`'s, and neither the wallet nor any cart changes. On success the wallet holds `CheckoutOf`'s balance, which is at least 0. The cart stays filed, with no items, and no other cart changes. |
| `Carts.Total` | src/services/cart.service.js:204-207 | The checkout total: `cost * quantity` of each item, using the product as stored in the item, summed from the first item to the last. |
| `Carts.AddItem` | src/services/cart.service.js:64-87 | The add on an existing cart: the duplicate error if the cart holds the product, else the catalog error if the catalog lacks it, else the items with one item for the catalog's product and the quantity pushed at the end. |
| `Carts.UpdateItem` | src/services/cart.service.js:127-141 | The update on an existing cart: the catalog error if the catalog lacks the product, else "Product not in cart" if `FindIndex` gives -1, else the items with the quantity of the item at that index overwritten. |
| `Carts.DeleteItem` | src/services/cart.service.js:174-187 | The delete on an existing cart: "Product not in cart" if `FindIndex` gives -1, else the items with the item at that index spliced out. |
| `Carts.CheckoutOf` | src/services/cart.service.js:204-234 | The checkout on an existing cart: "Cart is empty" for a zero `Total`, else "Address not set" for the default address, else the balance error for a wallet below the total, else the wallet minus the total. |
| `Carts.AddOutcome` | src/services/cart.service.js:64-87 | A product already in the cart is refused as a duplicate, even one missing from the catalog. Otherwise a product missing from the catalog is refused with "Product doesn't exist in database". Otherwise the add succeeds. It appends exactly one item, holding the catalog's product and the given quantity, and keeps every earlier item in place. |
| `Carts.AddKeepsUnique` | src/services/cart.service.js:64-79 | An add, successful or not, keeps every product in the cart at most once. |
| `Carts.SecondAddFails` | src/services/cart.service.js:64-70 | After a successful add, adding the same product again fails with "Product already in cart…". |
| `Carts.UpdateOutcome` | src/services/cart.service.js:127-141 | A product missing from the catalog is refused first, even one the cart holds. A product the cart does not hold is refused with "Product not in cart". On success the length and every product stay the same. The product's item gets the new quantity, every other item keeps its quantity, and the cart stays free of duplicates. |
| `Carts.UpdateIdempotent` | src/services/cart.service.js:134-139 | Setting the same quantity again succeeds and changes nothing. |
| `Carts.DeleteOutcome` | src/services/cart.service.js:174-187 | A delete succeeds exactly when the cart holds the product; otherwise it fails with "Product not in cart". On success one item with that product is removed. The length drops by one and the other items keep their relative order. |
| `Carts.DeleteRemovesProduct` | src/services/cart.service.js:174-187 | On a cart without duplicates, a delete keeps the cart without duplicates, and after a successful delete the product is no longer in the cart. |
| `Carts.SecondDeleteFails` | src/services/cart.service.js:182-183 | On a cart without duplicates, after a successful delete, deleting the same product again fails with "Product not in cart". |
| `Carts.DeleteUndoesAdd` | src/services/cart.service.js:166-189 | Deleting a product right after adding it successfully gives back the items from before the add. |
| `Carts.TotalNonNegative` | src/services/cart.service.js:204-207 | With non-negative costs and quantities, the total is non-negative. |
| `Carts.TotalZeroIffEmpty` | src/services/cart.service.js:209-211 | With positive costs and quantities, the total is zero exactly when the cart has no items. |
| `Carts.FreeItemReadsAsEmpty` | src/services/cart.service.js:204-211 | A cart whose items all cost nothing, whatever their quantities, has total 0 and fails checkout with "Cart is empty". The zero-total guard cannot tell such a cart from one with no items. |
| `Carts.CheckoutOutcome` | src/services/cart.service.js:204-234 | The guards are tried in a fixed order: zero total ("Cart is empty"), then default address ("Address not set"), then wallet below total ("Wallet balance not sufficient…"). Checkout succeeds exactly when all three pass. The new balance is the old balance minus the total, and it is never negative. |
| `Carts.CheckoutDebits` | src/services/cart.service.js:230-234 | With non-negative costs and quantities, a successful checkout strictly lowers the wallet and leaves it non-negative. An empty cart never checks out. |
| `Carts.CheckoutSpendsWholeWallet` | src/services/cart.service.js:193-240 | Two products costing 10 and 5 are added with quantities 2 and 1. Both adds succeed, the total is 25, and a checkout from a wallet of 25 succeeds with balance 0. |
| `Carts.CheckoutRefusedOnShortWallet` | src/services/cart.service.js:230-232 | One item costing 10, against a wallet of 5, is refused with "Wallet balance not sufficient to place order". |

## Left out

- Store failures are not modelled. The try/catch blocks that turn a failed `findOne` or `push` into a 500 (lines 53-57, 78-82, 118-122) cover I/O failures only. A failed `Cart.create` (line 59) sits outside any try/catch, so its error reaches the caller as the store raised it rather than as a 500; the model does not cover that either.
- `save()` is not modelled as a separate step. The in-memory objects are the stored state.
- Checkout's two writes (wallet, then cart) are modelled as one step. A crash between them, and races between concurrent requests (two adds passing the duplicate check together, say), are concurrency and persistence concerns.
- `checkout` fetches the cart a second time (line 238). The model treats that fetch as the cart it already holds.
- The implicit globals `usrscart`, `prod` and `element` are modelled as locals, so nothing leaks from one call to the next.
- The code of `user.hasSetNonDefaultAddress()` is not part of this model. The method is modelled as the test `address != DefaultAddress`, as on line 226. `config.default_address` is not part of this model either; its value is taken from the example user record.
- Costs, quantities and wallet amounts are integers. JavaScript's floating-point numbers are not modelled. Quantities are not checked to be positive, because no such check exists in this file.
- `KeyedById`, `AddKeepsUnique` and `CartService.CartStore.Valid` assume every product id has one spelling. The cart compares ids as raw strings (lines 66, 134, 175), but `findById` (lines 72, 127) casts the id to an ObjectId and also accepts the same hex in upper case. With a second spelling the source can push a second item for a product already in the cart, and an update can answer "Product not in cart" where the model answers "Product doesn't exist in database". The at-most-once invariant is proved only for canonical ids.
- Product ids are opaque strings. An id that `findById` cannot parse as an ObjectId makes the driver throw, which this model does not cover. The `toString()` comparison in update and the loose `==` comparison in delete are both modelled as equality of ids.
- The `console.log` calls are not modelled.
- Token handling (`src/services/token.service.js`), Passport and the auth middleware (`src/config/passport.js`, `src/middlewares/auth.js`) are not modelled. Neither are the Express controllers and routes (`src/controllers/*.js`, `src/routes/v1/user.route.js`). They are plumbing around the cart service.
