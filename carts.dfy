/** Value-level model of a QKart cart: products, line items, the API errors
    the cart service raises, and each cart operation stated as a function of
    the item list it works on. The imperative service in module CartService
    is proved against these functions. */
module Carts {

  type Email = string
  type ProductId = string

  /** A catalog entry. The cart engine reads only its id and its cost. */
  datatype Product = Product(id: ProductId, name: string, cost: int)

  /** A line item: the product document as it was when added, and a quantity. */
  datatype CartItem = CartItem(product: Product, quantity: int)

  /** The product collection, looked up by id. */
  type Catalog = map<ProductId, Product>

  /** An ApiError: an HTTP status code and a message. */
  datatype ApiError = ApiError(status: int, message: string)

  datatype Result<T> = Ok(value: T) | Err(error: ApiError)

  const StatusBadRequest := 400
  const StatusNotFound := 404

  /** The address a user record holds until the user sets one. */
  const DefaultAddress := "ADDRESS_NOT_SET"

  const CartNotFound := ApiError(StatusNotFound, "User does not have a cart")
  const ProductAlreadyInCart :=
    ApiError(StatusBadRequest, "Product already in cart. Use the cart sidebar to update or remove product from cart")
  const ProductNotInDatabase := ApiError(StatusBadRequest, "Product doesn't exist in database")
  const NoCartToUpdate :=
    ApiError(StatusBadRequest, "User does not have a cart. Use POST to create cart and add a product")
  const NoCartToDelete := ApiError(StatusBadRequest, "User does not have a cart.")
  const ProductNotInCart := ApiError(StatusBadRequest, "Product not in cart")
  const CartIsEmpty := ApiError(StatusBadRequest, "Cart is empty")
  const AddressNotSet := ApiError(StatusBadRequest, "Address not set")
  const InsufficientBalance := ApiError(StatusBadRequest, "Wallet balance not sufficient to place order")

  /** `findById(id)` returns a document whose `_id` is `id`, with ids
      taken to have a single spelling. */
  predicate KeyedById(catalog: Catalog) {
    forall id :: id in catalog ==> catalog[id].id == id
  }

  predicate InCart(items: seq<CartItem>, id: ProductId) {
    exists i :: 0 <= i < |items| && items[i].product.id == id
  }

  /** The cart invariant: no product appears in two line items. */
  predicate Unique(items: seq<CartItem>) {
    forall i, j :: 0 <= i < j < |items| ==> items[i].product.id != items[j].product.id
  }

  /** The items of the cart kept under `email`, or none when there is no cart. */
  function ItemsOf(carts: map<Email, seq<CartItem>>, email: Email): seq<CartItem> {
    if email in carts then carts[email] else []
  }

  /** What a cart holds after an operation: the new items on success, the
      old ones on failure. */
  function Committed(before: seq<CartItem>, outcome: Result<seq<CartItem>>): seq<CartItem> {
    if outcome.Ok? then outcome.value else before
  }

  /** `cartItems.findIndex(element => element.product._id == id)`: the index
      of the first item whose product has this id, or -1. */
  function FindIndex(items: seq<CartItem>, id: ProductId): (r: int)
    ensures -1 <= r < |items|
    ensures r == -1 <==> !InCart(items, id)
    ensures 0 <= r ==> items[r].product.id == id
    ensures 0 <= r ==> forall j :: 0 <= j < r ==> items[j].product.id != id
  {
    if |items| == 0 then -1
    else if items[0].product.id == id then 0
    else
      var k := FindIndex(items[1..], id);
      assert forall j :: 1 <= j < |items| ==> items[j] == items[1..][j - 1];
      if k == -1 then -1 else k + 1
  }

  function LineCost(item: CartItem): int {
    item.product.cost * item.quantity
  }

  /** The checkout total: `cost * quantity` summed from the first item to the last. */
  function Total(items: seq<CartItem>): int {
    if items == [] then 0 else Total(items[..|items| - 1]) + LineCost(items[|items| - 1])
  }

  predicate NonNegativeLines(items: seq<CartItem>) {
    forall i :: 0 <= i < |items| ==> items[i].product.cost >= 0 && items[i].quantity >= 0
  }

  predicate PositiveLines(items: seq<CartItem>) {
    forall i :: 0 <= i < |items| ==> items[i].product.cost > 0 && items[i].quantity > 0
  }

  // ---------------------------------------------------------------------
  // The operations on one cart's items, in the order the service checks.
  // ---------------------------------------------------------------------

  /** addProductToCart once the cart exists: the duplicate check comes first,
      then the catalog lookup, then the append. */
  function AddItem(items: seq<CartItem>, catalog: Catalog, id: ProductId, quantity: int): Result<seq<CartItem>> {
    if InCart(items, id) then Err(ProductAlreadyInCart)
    else if id !in catalog then Err(ProductNotInDatabase)
    else Ok(items + [CartItem(catalog[id], quantity)])
  }

  /** updateProductInCart once the cart exists: the catalog lookup comes
      first, then the search of the cart, then the quantity overwrite. */
  function UpdateItem(items: seq<CartItem>, catalog: Catalog, id: ProductId, quantity: int): Result<seq<CartItem>> {
    if id !in catalog then Err(ProductNotInDatabase)
    else
      var i := FindIndex(items, id);
      if i == -1 then Err(ProductNotInCart)
      else Ok(items[i := items[i].(quantity := quantity)])
  }

  /** deleteProductFromCart once the cart exists: splice out the first match. */
  function DeleteItem(items: seq<CartItem>, id: ProductId): Result<seq<CartItem>> {
    var i := FindIndex(items, id);
    if i == -1 then Err(ProductNotInCart)
    else Ok(items[..i] + items[i + 1..])
  }

  /** checkout once the cart exists: the new wallet balance, or the first
      guard that fails. On success the cart's items become empty. */
  function CheckoutOf(items: seq<CartItem>, walletMoney: int, address: string): Result<int> {
    var total := Total(items);
    if total == 0 then Err(CartIsEmpty)
    else if address == DefaultAddress then Err(AddressNotSet)
    else if walletMoney < total then Err(InsufficientBalance)
    else Ok(walletMoney - total)
  }

  // ---------------------------------------------------------------------
  // Add
  // ---------------------------------------------------------------------

  /** The outcome of an add, case by case: a product already in the cart is
      refused as a duplicate whether or not it is in the catalog; otherwise
      a product missing from the catalog is refused; otherwise exactly one
      item, holding the catalog's product and the given quantity, is
      appended and every earlier item stays where it was. */
  lemma AddOutcome(items: seq<CartItem>, catalog: Catalog, id: ProductId, quantity: int)
    ensures InCart(items, id) ==> AddItem(items, catalog, id, quantity) == Err(ProductAlreadyInCart)
    ensures !InCart(items, id) && id !in catalog ==> AddItem(items, catalog, id, quantity) == Err(ProductNotInDatabase)
    ensures AddItem(items, catalog, id, quantity).Ok? <==> !InCart(items, id) && id in catalog
    ensures AddItem(items, catalog, id, quantity).Ok? ==>
      var r := AddItem(items, catalog, id, quantity).value;
      |r| == |items| + 1 && r[..|items|] == items && r[|items|] == CartItem(catalog[id], quantity)
  {
  }

  /** A successful add keeps every product in the cart at most once. */
  lemma AddKeepsUnique(items: seq<CartItem>, catalog: Catalog, id: ProductId, quantity: int)
    requires KeyedById(catalog) && Unique(items)
    ensures Unique(Committed(items, AddItem(items, catalog, id, quantity)))
  {
    var outcome := AddItem(items, catalog, id, quantity);
    if outcome.Ok? {
      var r := outcome.value;
      forall i, j | 0 <= i < j < |r| ensures r[i].product.id != r[j].product.id {
        if j == |items| {
          assert r[i] == items[i];
          assert r[j].product.id == id;
        }
      }
    }
  }

  /** Two adds of the same product in a row: the second is refused as a
      duplicate and changes nothing. */
  lemma {:induction false} SecondAddFails(items: seq<CartItem>, catalog: Catalog, id: ProductId, q1: int, q2: int)
    requires KeyedById(catalog)
    requires AddItem(items, catalog, id, q1).Ok?
    ensures var after := AddItem(items, catalog, id, q1).value;
      AddItem(after, catalog, id, q2) == Err(ProductAlreadyInCart)
  {
    var after := AddItem(items, catalog, id, q1).value;
    assert after[|items|].product.id == id;
  }

  // ---------------------------------------------------------------------
  // Update
  // ---------------------------------------------------------------------

  /** The outcome of an update, case by case: a product missing from the
      catalog is refused even when the cart holds it; otherwise a product
      the cart does not hold is refused; otherwise the cart keeps its
      length and its products, the item of that product takes the new
      quantity and every other item is unchanged. */
  lemma UpdateOutcome(items: seq<CartItem>, catalog: Catalog, id: ProductId, quantity: int)
    requires Unique(items)
    ensures id !in catalog ==> UpdateItem(items, catalog, id, quantity) == Err(ProductNotInDatabase)
    ensures id in catalog && !InCart(items, id) ==> UpdateItem(items, catalog, id, quantity) == Err(ProductNotInCart)
    ensures UpdateItem(items, catalog, id, quantity).Ok? <==> id in catalog && InCart(items, id)
    ensures UpdateItem(items, catalog, id, quantity).Ok? ==>
      var r := UpdateItem(items, catalog, id, quantity).value;
      |r| == |items| && Unique(r) &&
      forall i :: 0 <= i < |items| ==>
        r[i].product == items[i].product &&
        r[i].quantity == (if items[i].product.id == id then quantity else items[i].quantity)
  {
    var outcome := UpdateItem(items, catalog, id, quantity);
    if outcome.Ok? {
      var k := FindIndex(items, id);
      var r := outcome.value;
      forall i | 0 <= i < |items| && items[i].product.id == id ensures i == k {
      }
      assert forall i :: 0 <= i < |r| ==> r[i].product == items[i].product;
    }
  }

  /** Setting the same quantity twice is the same as setting it once. */
  lemma {:induction false} UpdateIdempotent(items: seq<CartItem>, catalog: Catalog, id: ProductId, quantity: int)
    requires UpdateItem(items, catalog, id, quantity).Ok?
    ensures var once := UpdateItem(items, catalog, id, quantity).value;
      UpdateItem(once, catalog, id, quantity) == Ok(once)
  {
    var k := FindIndex(items, id);
    var once := UpdateItem(items, catalog, id, quantity).value;
    assert forall j :: 0 <= j < |items| ==> once[j].product == items[j].product;
    FindIndexSameProducts(items, once, id);
    assert FindIndex(once, id) == k;
    assert once[k].(quantity := quantity) == once[k];
    assert once[k := once[k]] == once;
  }

  /** FindIndex looks only at the products, so two lists with the same
      products in the same places give the same index. */
  lemma {:induction false} FindIndexSameProducts(a: seq<CartItem>, b: seq<CartItem>, id: ProductId)
    requires |a| == |b|
    requires forall j :: 0 <= j < |a| ==> a[j].product == b[j].product
    ensures FindIndex(a, id) == FindIndex(b, id)
  {
    if |a| > 0 && a[0].product.id != id {
      FindIndexSameProducts(a[1..], b[1..], id);
    }
  }

  // ---------------------------------------------------------------------
  // Delete
  // ---------------------------------------------------------------------

  /** The outcome of a delete: it succeeds exactly when the cart holds the
      product, and then removes exactly one item of that product; the
      length drops by one and the other items keep their relative order. */
  lemma DeleteOutcome(items: seq<CartItem>, id: ProductId)
    ensures DeleteItem(items, id).Ok? <==> InCart(items, id)
    ensures DeleteItem(items, id).Err? ==> DeleteItem(items, id).error == ProductNotInCart
    ensures DeleteItem(items, id).Ok? ==>
      var r := DeleteItem(items, id).value;
      |r| == |items| - 1 &&
      exists k :: 0 <= k < |items| && items[k].product.id == id && r == items[..k] + items[k + 1..]
  {
    if InCart(items, id) {
      var k := FindIndex(items, id);
      assert items[k].product.id == id;
    }
  }

  /** A delete keeps the cart free of duplicates, and on such a cart it
      removes every trace of the product. */
  lemma DeleteRemovesProduct(items: seq<CartItem>, id: ProductId)
    requires Unique(items)
    ensures Unique(Committed(items, DeleteItem(items, id)))
    ensures DeleteItem(items, id).Ok? ==> !InCart(DeleteItem(items, id).value, id)
  {
    var outcome := DeleteItem(items, id);
    if outcome.Ok? {
      var k := FindIndex(items, id);
      var r := outcome.value;
      assert forall j :: 0 <= j < |r| ==> r[j] == if j < k then items[j] else items[j + 1];
      forall j | 0 <= j < |r| ensures r[j].product.id != id {
        if j < k {
          assert r[j] == items[j];
        } else {
          assert r[j] == items[j + 1];
          assert items[k].product.id != items[j + 1].product.id;
        }
      }
    }
  }

  /** Deleting the same product twice: the second delete is refused with
      "Product not in cart". */
  lemma {:induction false} SecondDeleteFails(items: seq<CartItem>, id: ProductId)
    requires Unique(items)
    requires DeleteItem(items, id).Ok?
    ensures DeleteItem(DeleteItem(items, id).value, id) == Err(ProductNotInCart)
  {
    DeleteRemovesProduct(items, id);
  }

  /** Delete undoes a successful add. */
  lemma {:induction false} DeleteUndoesAdd(items: seq<CartItem>, catalog: Catalog, id: ProductId, quantity: int)
    requires KeyedById(catalog)
    requires AddItem(items, catalog, id, quantity).Ok?
    ensures DeleteItem(AddItem(items, catalog, id, quantity).value, id) == Ok(items)
  {
    var r := AddItem(items, catalog, id, quantity).value;
    var k := FindIndex(r, id);
    assert r[|items|].product.id == id;
    assert forall j :: 0 <= j < |items| ==> r[j] == items[j];
    assert k == |items|;
    assert r[..k] == items && r[k + 1..] == [];
    assert r[..k] + r[k + 1..] == items;
  }

  // ---------------------------------------------------------------------
  // Checkout
  // ---------------------------------------------------------------------

  lemma {:induction false} TotalNonNegative(items: seq<CartItem>)
    requires NonNegativeLines(items)
    ensures Total(items) >= 0
  {
    if items != [] {
      var init := items[..|items| - 1];
      assert forall i :: 0 <= i < |init| ==> init[i] == items[i];
      TotalNonNegative(init);
    }
  }

  /** When every item has a positive cost and a positive quantity, a zero
      total means exactly an empty cart. */
  lemma {:induction false} TotalZeroIffEmpty(items: seq<CartItem>)
    requires PositiveLines(items)
    ensures Total(items) == 0 <==> items == []
    ensures items != [] ==> Total(items) > 0
  {
    if items != [] {
      var init := items[..|items| - 1];
      assert forall i :: 0 <= i < |init| ==> init[i] == items[i];
      TotalZeroIffEmpty(init);
      var last := items[|items| - 1];
      assert LineCost(last) > 0 by {
        assert last.product.cost > 0 && last.quantity > 0;
      }
    }
  }

  /** The zero-total guard cannot tell free items from no items: a cart
      whose items all cost nothing, whatever their quantities, is reported
      as empty. */
  lemma {:induction false} FreeItemReadsAsEmpty(items: seq<CartItem>, walletMoney: int, address: string)
    requires forall i :: 0 <= i < |items| ==> items[i].product.cost == 0
    ensures Total(items) == 0
    ensures CheckoutOf(items, walletMoney, address) == Err(CartIsEmpty)
  {
    if items != [] {
      var init := items[..|items| - 1];
      assert forall i :: 0 <= i < |init| ==> init[i] == items[i];
      FreeItemReadsAsEmpty(init, walletMoney, address);
    }
  }

  /** The outcome of a checkout, case by case: the guards are tried in the
      order empty total, unset address, short wallet, and the first that
      fails decides the error; a checkout that passes them debits exactly
      the total and never leaves the wallet negative. */
  lemma CheckoutOutcome(items: seq<CartItem>, walletMoney: int, address: string)
    ensures Total(items) == 0 ==> CheckoutOf(items, walletMoney, address) == Err(CartIsEmpty)
    ensures Total(items) != 0 && address == DefaultAddress ==> CheckoutOf(items, walletMoney, address) == Err(AddressNotSet)
    ensures Total(items) != 0 && address != DefaultAddress && walletMoney < Total(items) ==>
      CheckoutOf(items, walletMoney, address) == Err(InsufficientBalance)
    ensures CheckoutOf(items, walletMoney, address).Ok? <==>
      Total(items) != 0 && address != DefaultAddress && Total(items) <= walletMoney
    ensures CheckoutOf(items, walletMoney, address).Ok? ==>
      var balance := CheckoutOf(items, walletMoney, address).value;
      balance >= 0 && balance + Total(items) == walletMoney
  {
  }

  /** With non-negative costs and quantities a successful checkout strictly
      lowers the wallet, and an empty cart never checks out. */
  lemma {:induction false} CheckoutDebits(items: seq<CartItem>, walletMoney: int, address: string)
    requires NonNegativeLines(items)
    ensures CheckoutOf(items, walletMoney, address).Ok? ==>
      0 <= CheckoutOf(items, walletMoney, address).value < walletMoney
    ensures CheckoutOf([], walletMoney, address) == Err(CartIsEmpty)
  {
    TotalNonNegative(items);
  }

  // ---------------------------------------------------------------------
  // End to end
  // ---------------------------------------------------------------------

  /** Products costing 10 and 5, added with quantities 2 and 1, make a
      total of 25; a wallet of 25 with an address set pays it and ends at
      0. That the cart's items are then empty comes from the contract of
      CartStore.Checkout. */
  lemma CheckoutSpendsWholeWallet()
    ensures var a := Product("A", "product A", 10);
      var b := Product("B", "product B", 5);
      var catalog := map["A" := a, "B" := b];
      && AddItem([], catalog, "A", 2) == Ok([CartItem(a, 2)])
      && AddItem([CartItem(a, 2)], catalog, "B", 1) == Ok([CartItem(a, 2), CartItem(b, 1)])
      && CheckoutOf([CartItem(a, 2), CartItem(b, 1)], 25, "12 Market Street") == Ok(0)
  {
    var a := Product("A", "product A", 10);
    var b := Product("B", "product B", 5);
    var catalog := map["A" := a, "B" := b];
    assert catalog["A"] == a && catalog["B"] == b;
    assert [] + [CartItem(a, 2)] == [CartItem(a, 2)];
    assert !InCart([CartItem(a, 2)], "B") by {
      assert "A" != "B";
    }
    TotalOfTwo(CartItem(a, 2), CartItem(b, 1));
    assert "12 Market Street" != DefaultAddress by {
      assert "12 Market Street"[0] != DefaultAddress[0];
    }
    assert [CartItem(a, 2)] + [CartItem(b, 1)] == [CartItem(a, 2), CartItem(b, 1)];
  }

  lemma TotalOfTwo(x: CartItem, y: CartItem)
    ensures Total([x, y]) == LineCost(x) + LineCost(y)
  {
    assert [x][..0] == [];
    assert Total([x]) == LineCost(x);
    assert [x, y][..1] == [x];
  }

  /** One item costing 10 against a wallet of 5 is refused for the balance.
      That neither the wallet nor the cart then changes comes from the
      contract of CartStore.Checkout. */
  lemma CheckoutRefusedOnShortWallet()
    ensures var a := Product("A", "product A", 10);
      CheckoutOf([CartItem(a, 1)], 5, "3 Side Road") == Err(InsufficientBalance)
  {
    var a := Product("A", "product A", 10);
    assert [CartItem(a, 1)][..0] == [];
  }
}
