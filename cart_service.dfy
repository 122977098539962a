/** The cart service of QKart: one cart document per user, keyed by the
    user's email, whose line items the service changes in place, and the
    user record whose wallet checkout debits. The document store becomes a
    map from email to cart object and a read-only product catalog. */
module CartService {
  import opened Carts

  /** A cart document. Its email is fixed when it is created; its items are
      pushed, overwritten, spliced and cleared in place. */
  class Cart {
    const email: Email
    var cartItems: seq<CartItem>

    constructor (email: Email)
      ensures this.email == email && cartItems == []
    {
      this.email := email;
      cartItems := [];
    }
  }

  /** The part of a user record the cart service reads and writes. */
  class User {
    const email: Email
    var walletMoney: int
    var address: string

    constructor (email: Email, walletMoney: int, address: string)
      ensures this.email == email && this.walletMoney == walletMoney && this.address == address
    {
      this.email := email;
      this.walletMoney := walletMoney;
      this.address := address;
    }
  }

  /** The duplicate search of addProductToCart: walk the items and stop at
      the first one whose product has this id. */
  method HasProduct(items: seq<CartItem>, id: ProductId) returns (found: bool)
    ensures found <==> InCart(items, id)
  {
    var i := 0;
    while i < |items|
      invariant 0 <= i <= |items|
      invariant forall j :: 0 <= j < i ==> items[j].product.id != id
    {
      if items[i].product.id == id {
        return true;
      }
      i := i + 1;
    }
    return false;
  }

  /** The total of checkout: add `cost * quantity` of each item, first to last. */
  method SumCosts(items: seq<CartItem>) returns (total: int)
    ensures total == Total(items)
  {
    total := 0;
    var i := 0;
    while i < |items|
      invariant 0 <= i <= |items|
      invariant total == Total(items[..i])
    {
      assert items[..i + 1][..i] == items[..i];
      total := total + items[i].product.cost * items[i].quantity;
      i := i + 1;
    }
    assert items[..i] == items;
  }

  /** The cart collection and the product collection, with the five service
      operations. */
  class CartStore {
    const catalog: Catalog
    var carts: map<Email, Cart>

    /** Each cart is filed under its own email and holds each product at
        most once; the catalog files each product under its id. */
    ghost predicate Valid()
      reads this, carts.Values
    {
      && KeyedById(catalog)
      && forall e :: e in carts ==> carts[e].email == e && Unique(carts[e].cartItems)
    }

    /** The items of every cart, by email. */
    ghost function Contents(): map<Email, seq<CartItem>>
      reads this, carts.Values
    {
      map e | e in carts :: carts[e].cartItems
    }

    constructor (catalog: Catalog)
      requires KeyedById(catalog)
      ensures Valid() && this.catalog == catalog && carts == map[]
    {
      this.catalog := catalog;
      carts := map[];
    }

    /** getCartByUser: the cart filed under the user's email, or 404. */
    method GetCartByUser(user: User) returns (r: Result<Cart>)
      ensures r.Ok? <==> user.email in carts
      ensures r.Ok? ==> r.value == carts[user.email]
      ensures Valid() && r.Ok? ==> r.value.email == user.email
      ensures r.Err? ==> r.error == CartNotFound
    {
      if user.email !in carts {
        return Err(CartNotFound);
      }
      r := Ok(carts[user.email]);
    }

    /** The first step of addProductToCart: find the user's cart, and create
        an empty one when there is none. */
    method FindOrCreateCart(user: User) returns (cart: Cart)
      requires Valid()
      modifies this
      ensures Valid()
      ensures carts == old(carts)[user.email := cart] && cart.email == user.email
      ensures user.email in old(carts) ==> cart == old(carts[user.email])
      ensures user.email !in old(carts) ==> fresh(cart)
      ensures cart.cartItems == ItemsOf(old(Contents()), user.email)
      ensures Contents() == old(Contents())[user.email := cart.cartItems]
    {
      if user.email in carts {
        cart := carts[user.email];
        assert carts == carts[user.email := cart];
      } else {
        cart := new Cart(user.email);
        carts := carts[user.email := cart];
      }
    }

    /** addProductToCart: create the cart if the user has none, then add
        the product to it. A refused add keeps the cart it created. */
    method AddProductToCart(user: User, productId: ProductId, quantity: int) returns (r: Result<Cart>)
      requires Valid()
      modifies this, carts.Values
      ensures Valid()
      ensures user.email in carts && carts == old(carts)[user.email := carts[user.email]]
      ensures user.email in old(carts) ==> carts[user.email] == old(carts[user.email])
      ensures user.email !in old(carts) ==> fresh(carts[user.email])
      ensures var before := ItemsOf(old(Contents()), user.email);
        var outcome := AddItem(before, catalog, productId, quantity);
        && Contents() == old(Contents())[user.email := Committed(before, outcome)]
        && (r.Ok? <==> outcome.Ok?)
        && (r.Ok? ==> r.value == carts[user.email])
        && (r.Err? ==> r.error == outcome.error)
    {
      var cart := FindOrCreateCart(user);
      r := AddToCart(cart, productId, quantity);
    }

    /** The rest of addProductToCart, on a cart that exists: refuse a
        product already in it, then a product missing from the catalog,
        and otherwise push one item. */
    method AddToCart(cart: Cart, productId: ProductId, quantity: int) returns (r: Result<Cart>)
      requires Valid() && cart.email in carts && carts[cart.email] == cart
      modifies cart
      ensures Valid()
      ensures var before := old(cart.cartItems);
        var outcome := AddItem(before, catalog, productId, quantity);
        && Contents() == old(Contents())[cart.email := Committed(before, outcome)]
        && (r.Ok? <==> outcome.Ok?)
        && (r.Ok? ==> r.value == cart)
        && (r.Err? ==> r.error == outcome.error)
    {
      var duplicate := HasProduct(cart.cartItems, productId);
      if duplicate {
        return Err(ProductAlreadyInCart);
      }
      if productId !in catalog {
        return Err(ProductNotInDatabase);
      }
      ghost var before := cart.cartItems;
      cart.cartItems := cart.cartItems + [CartItem(catalog[productId], quantity)];
      r := Ok(cart);
      AddKeepsUnique(before, catalog, productId, quantity);
      assert Contents() == old(Contents())[cart.email := cart.cartItems];
    }

    /** updateProductInCart: refuse a user without a cart, then a product
        missing from the catalog, then a product the cart does not hold;
        otherwise overwrite that item's quantity. */
    method UpdateProductInCart(user: User, productId: ProductId, quantity: int) returns (r: Result<Cart>)
      requires Valid()
      modifies carts.Values
      ensures Valid()
      ensures carts == old(carts)
      ensures user.email !in carts ==> r == Err(NoCartToUpdate) && Contents() == old(Contents())
      ensures user.email in carts ==>
        var before := old(Contents())[user.email];
        var outcome := UpdateItem(before, catalog, productId, quantity);
        && Contents() == old(Contents())[user.email := Committed(before, outcome)]
        && (r.Ok? <==> outcome.Ok?)
        && (r.Ok? ==> r.value == carts[user.email])
        && (r.Err? ==> r.error == outcome.error)
    {
      if user.email !in carts {
        return Err(NoCartToUpdate);
      }
      var cart := carts[user.email];
      ghost var before := cart.cartItems;
      if productId !in catalog {
        return Err(ProductNotInDatabase);
      }
      var index := FindIndex(cart.cartItems, productId);
      if index == -1 {
        return Err(ProductNotInCart);
      }
      cart.cartItems := cart.cartItems[index := cart.cartItems[index].(quantity := quantity)];
      r := Ok(cart);
      UpdateOutcome(before, catalog, productId, quantity);
      assert Contents() == old(Contents())[user.email := cart.cartItems];
    }

    /** deleteProductFromCart: refuse a user without a cart, then a product
        the cart does not hold; otherwise splice that item out. */
    method DeleteProductFromCart(user: User, productId: ProductId) returns (r: Result<()>)
      requires Valid()
      modifies carts.Values
      ensures Valid()
      ensures carts == old(carts)
      ensures user.email !in carts ==> r == Err(NoCartToDelete) && Contents() == old(Contents())
      ensures user.email in carts ==>
        var before := old(Contents())[user.email];
        var outcome := DeleteItem(before, productId);
        && Contents() == old(Contents())[user.email := Committed(before, outcome)]
        && (r.Ok? <==> outcome.Ok?)
        && (r.Err? ==> r.error == outcome.error)
    {
      if user.email !in carts {
        return Err(NoCartToDelete);
      }
      var cart := carts[user.email];
      ghost var before := cart.cartItems;
      var index := FindIndex(cart.cartItems, productId);
      if index == -1 {
        return Err(ProductNotInCart);
      }
      cart.cartItems := cart.cartItems[..index] + cart.cartItems[index + 1..];
      r := Ok(());
      DeleteRemovesProduct(before, productId);
      assert Contents() == old(Contents())[user.email := cart.cartItems];
    }

    /** checkout: fetch the cart (404 without one), total it, refuse a zero
        total, an unset address and a short wallet, in that order; otherwise
        debit the wallet and empty the cart, which stays in place. */
    method Checkout(user: User) returns (r: Result<()>)
      requires Valid()
      modifies user`walletMoney, carts.Values
      ensures Valid()
      ensures carts == old(carts)
      ensures user.email !in carts ==>
        r == Err(CartNotFound) && user.walletMoney == old(user.walletMoney) && Contents() == old(Contents())
      ensures user.email in carts ==>
        var outcome := CheckoutOf(old(Contents())[user.email], old(user.walletMoney), user.address);
        && (r.Ok? <==> outcome.Ok?)
        && (r.Err? ==> r.error == outcome.error && user.walletMoney == old(user.walletMoney)
                       && Contents() == old(Contents()))
        && (r.Ok? ==> user.walletMoney == outcome.value && user.walletMoney >= 0
                      && Contents() == old(Contents())[user.email := []])
    {
      var found := GetCartByUser(user);
      if found.Err? {
        return Err(found.error);
      }
      var cart := found.value;
      var total := SumCosts(cart.cartItems);
      if total == 0 {
        return Err(CartIsEmpty);
      }
      if user.address == DefaultAddress {
        return Err(AddressNotSet);
      }
      if user.walletMoney < total {
        return Err(InsufficientBalance);
      }
      user.walletMoney := user.walletMoney - total;
      cart.cartItems := [];
      r := Ok(());
      assert Contents() == old(Contents())[user.email := []];
    }
  }
}
