/** The browser's key-value store as one object, with one method per event
    handler that reads a collection, changes it and writes it back; and the
    Cart page, whose checkout dialog state sits beside the store. */
module Storefront {
  import opened Model
  import opened CartLines
  import Catalog
  import Accounts
  import Decimal

  /** What the admin dashboard loads once the guard lets it in. */
  datatype AdminData = AdminData(users: seq<User>, products: seq<Product>, orders: seq<Order>)

  /** The prefix of every order code. */
  const OrderCodePrefix: string := "AC"

  function OrderCode(now: nat): string {
    OrderCodePrefix + Decimal.DecimalString(now)
  }

  /** Checkouts at different instants get different order codes. */
  lemma OrderCodesDiffer(a: nat, b: nat)
    requires a != b
    ensures OrderCode(a) != OrderCode(b)
  {
    if OrderCode(a) == OrderCode(b) {
      Decimal.PrefixedInjective(OrderCodePrefix, a, b);
    }
  }

  class Store {
    var users: seq<User>
    var products: seq<Product>
    /** Whether the "products" key exists; an absent key reads as []. */
    var productsSaved: bool
    var cart: seq<CartItem>
    var orders: seq<Order>
    var currentUser: Option<User>

    /** What every handler keeps true of the store. */
    ghost predicate Valid()
      reads this
    {
      && Accounts.DistinctEmails(users)
      && WellFormed(cart)
      && Catalog.StocksNonNegative(products)
      && (!productsSaved ==> products == [])
      && forall i :: 0 <= i < |orders| ==> orders[i].total == TotalPrice(orders[i].items)
    }

    /** A fresh browser: every key absent. */
    constructor ()
      ensures Valid()
      ensures users == [] && products == [] && !productsSaved && cart == [] && orders == []
      ensures currentUser == None
    {
      users, products, productsSaved, cart, orders, currentUser := [], [], false, [], [], None;
    }

    /** The Products page's first effect: write the two defaults when the
        "products" key is absent, and show what is stored. */
    method SeedProducts() returns (shown: seq<Product>)
      modifies this`products, this`productsSaved
      ensures old(productsSaved) ==> products == old(products)
      ensures !old(productsSaved) ==> products == Catalog.DefaultProducts()
      ensures productsSaved && shown == products
      ensures old(Valid()) ==> Valid()
    {
      if !productsSaved {
        products := Catalog.DefaultProducts();
        productsSaved := true;
      }
      shown := products;
    }

    /** The shared step of both pages' "add to cart": find the line, raise its
        quantity in place, or push a new line. */
    method AddLineInPlace(product: Product)
      modifies this`cart
      ensures cart == AddLine(old(cart), product)
    {
      AddLineAt(cart, product);
      var k := FindLine(cart, product.id);
      assert k == FirstIndex(cart, product.id);
      if k < |cart| {
        cart := cart[k := Bump(cart[k])];
      } else {
        cart := cart + [LineFor(product)];
      }
    }

    /** "Add to cart" on the Home page: refused without a signed-in user or
        for the admin, otherwise merge-or-append. */
    method AddToCartFromHome(product: Product) returns (r: Result<()>)
      modifies this`cart
      ensures currentUser.None? ==> r == Err(Unauthenticated, None) && cart == old(cart)
      ensures Accounts.IsAdmin(currentUser) ==> r == Err(Forbidden, None) && cart == old(cart)
      ensures currentUser.Some? && !Accounts.IsAdmin(currentUser) ==>
        r == Ok(()) && cart == AddLine(old(cart), product)
      ensures old(Valid()) ==> Valid()
    {
      if currentUser.None? {
        return Err(Unauthenticated, None);
      }
      if currentUser.value.email == AdminEmail {
        return Err(Forbidden, None);
      }
      if WellFormed(cart) {
        AddLineKeepsUniqueIds(cart, product);
        AddLineKeepsQuantities(cart, product);
      }
      AddLineInPlace(product);
      r := Ok(());
    }

    /** "Add to cart" on the Products page: as on Home, except that a visitor
        who is not signed in is sent to /auth. */
    method AddToCartFromProducts(product: Product) returns (r: Result<()>)
      modifies this`cart
      ensures currentUser.None? ==> r == Err(Unauthenticated, Some("/auth")) && cart == old(cart)
      ensures Accounts.IsAdmin(currentUser) ==> r == Err(Forbidden, None) && cart == old(cart)
      ensures currentUser.Some? && !Accounts.IsAdmin(currentUser) ==>
        r == Ok(()) && cart == AddLine(old(cart), product)
      ensures old(Valid()) ==> Valid()
    {
      if currentUser.None? {
        return Err(Unauthenticated, Some("/auth"));
      }
      if currentUser.value.email == AdminEmail {
        return Err(Forbidden, None);
      }
      if WellFormed(cart) {
        AddLineKeepsUniqueIds(cart, product);
        AddLineKeepsQuantities(cart, product);
      }
      AddLineInPlace(product);
      r := Ok(());
    }

    /** The admin's stock input: clamp at zero, replace the matching product's
        stock, and write the list (which creates the key). */
    method UpdateStock(productId: string, newStock: int)
      modifies this`products, this`productsSaved
      ensures products == Catalog.SetStock(old(products), productId, newStock)
      ensures productsSaved
      ensures old(Valid()) ==> Valid()
    {
      products := Catalog.SetStock(products, productId, newStock);
      productsSaved := true;
    }

    /** The dashboard guard: only the admin identity loads the data; anyone
        else is sent to the home page. */
    method OpenAdmin() returns (r: Result<AdminData>)
      ensures !Accounts.IsAdmin(currentUser) ==> r == Err(Forbidden, Some("/"))
      ensures Accounts.IsAdmin(currentUser) ==> r == Ok(AdminData(users, products, orders))
    {
      if currentUser.None? || currentUser.value.email != AdminEmail {
        return Err(Forbidden, Some("/"));
      }
      r := Ok(AdminData(users, products, orders));
    }

    /** Login: the first stored user with this e-mail and password becomes the
        current user; otherwise nothing changes. */
    method Login(email: string, password: string) returns (r: Result<User>)
      modifies this`currentUser
      ensures r.Ok? <==> exists i :: 0 <= i < |users| && Accounts.Matches(users[i], email, password)
      ensures r.Ok? ==> currentUser == Some(r.value)
      ensures r.Ok? ==>
        exists k :: 0 <= k < |users| && users[k] == r.value && Accounts.Matches(users[k], email, password)
          && forall j :: 0 <= j < k ==> !Accounts.Matches(users[j], email, password)
      ensures r.Err? ==> r == Err(InvalidCredentials, None) && currentUser == old(currentUser)
      ensures old(Valid()) ==> Valid()
    {
      var k := Accounts.FindByCredentials(users, email, password);
      if k < |users| {
        currentUser := Some(users[k]);
        r := Ok(users[k]);
      } else {
        r := Err(InvalidCredentials, None);
      }
    }

    /** Registration: refused when the e-mail is taken; otherwise one user is
        appended and becomes the current user. */
    method Register(name: string, rollNo: string, email: string, password: string,
                    now: nat, registeredAt: Date) returns (r: Result<User>)
      modifies this`users, this`currentUser
      ensures Accounts.EmailTaken(old(users), email) ==>
        r == Err(DuplicateEmail, None) && users == old(users) && currentUser == old(currentUser)
      ensures !Accounts.EmailTaken(old(users), email) ==>
        && r == Ok(Accounts.NewUser(now, name, rollNo, email, password, registeredAt))
        && users == old(users) + [r.value]
        && currentUser == Some(r.value)
      ensures old(Valid()) ==> Valid()
    {
      var k := Accounts.FindByEmail(users, email);
      if k < |users| {
        return Err(DuplicateEmail, None);
      }
      var newUser := Accounts.NewUser(now, name, rollNo, email, password, registeredAt);
      if Accounts.DistinctEmails(users) {
        Accounts.RegisterKeepsEmailsDistinct(users, newUser);
      }
      users := users + [newUser];
      currentUser := Some(newUser);
      r := Ok(newUser);
    }
  }

  /** The Cart page: the store it works on and its own dialog state. The page's
      cart state is the stored cart (it is loaded on mount and written back on
      every change). */
  class CartPage {
    const store: Store
    var showCheckout: bool
    var showSuccess: bool
    var orderCode: string
    var paymentMethod: PaymentMethod

    constructor (store: Store)
      ensures this.store == store
      ensures !showCheckout && !showSuccess && orderCode == "" && paymentMethod == Cash
    {
      this.store := store;
      showCheckout, showSuccess, orderCode, paymentMethod := false, false, "", Cash;
    }

    /** The mount guard: without a signed-in user the page goes to /auth
        instead of loading the cart. */
    method Mount() returns (r: Result<seq<CartItem>>)
      ensures store.currentUser.None? ==> r == Err(Unauthenticated, Some("/auth"))
      ensures store.currentUser.Some? ==> r == Ok(store.cart)
    {
      if store.currentUser.None? {
        return Err(Unauthenticated, Some("/auth"));
      }
      r := Ok(store.cart);
    }

    /** The trash button: every line with that id goes, the rest stays in order. */
    method RemoveFromCart(id: string)
      modifies store`cart
      ensures store.cart == RemoveLine(old(store.cart), id)
      ensures old(store.Valid()) ==> store.Valid()
    {
      if WellFormed(store.cart) {
        RemoveLineKeepsWellFormed(store.cart, id);
      }
      store.cart := RemoveLine(store.cart, id);
    }

    /** The +/- controls: change the matching line's quantity, never below 1. */
    method UpdateQuantity(id: string, change: int)
      modifies store`cart
      ensures store.cart == ChangeQuantity(old(store.cart), id, change)
      ensures old(store.Valid()) ==> store.Valid()
    {
      if WellFormed(store.cart) {
        ChangeQuantityKeepsWellFormed(store.cart, id, change);
      }
      store.cart := ChangeQuantity(store.cart, id, change);
    }

    /** The order summary's total. */
    function Total(): int
      reads this, store
    {
      TotalPrice(store.cart)
    }

    /** "Proceed to checkout": refused on an empty cart, otherwise the payment
        dialog opens. The store is not touched either way. */
    method HandleCheckout() returns (r: Result<()>)
      modifies this`showCheckout
      ensures store.cart == [] ==> r == Err(EmptyCart, None) && showCheckout == old(showCheckout)
      ensures store.cart != [] ==> r == Ok(()) && showCheckout
    {
      if |store.cart| == 0 {
        return Err(EmptyCart, None);
      }
      showCheckout := true;
      r := Ok(());
    }

    /** The radio group of the payment dialog. */
    method ChoosePayment(m: PaymentMethod)
      modifies this`paymentMethod
      ensures paymentMethod == m
    {
      paymentMethod := m;
    }

    /** "Cancel" closes the dialog and changes nothing else. */
    method Cancel()
      modifies this`showCheckout
      ensures !showCheckout
    {
      showCheckout := false;
    }

    /** "Confirm order": one Pending order that snapshots the cart, its total,
        the chosen payment method and the current user is appended to the
        ledger, then the cart is emptied. The page reads the current user's
        fields without checking it is there, so a signed-in user is required. */
    method ConfirmOrder(now: nat, createdAt: Date) returns (code: string)
      requires store.currentUser.Some?
      modifies this`orderCode, this`showCheckout, this`showSuccess, store`orders, store`cart
      ensures code == OrderCode(now) && orderCode == code
      ensures var u := store.currentUser.value;
        store.orders == old(store.orders) + [Order(code, u.id, u.name, u.email, u.rollNo,
          old(store.cart), TotalPrice(old(store.cart)), paymentMethod, Pending, createdAt)]
      ensures store.cart == [] && Total() == 0
      ensures !showCheckout && showSuccess
      ensures old(store.Valid()) ==> store.Valid()
    {
      var u := store.currentUser.value;
      code := OrderCode(now);
      var order := Order(code, u.id, u.name, u.email, u.rollNo,
        store.cart, TotalPrice(store.cart), paymentMethod, Pending, createdAt);
      store.orders := store.orders + [order];
      orderCode := code;
      showCheckout := false;
      showSuccess := true;
      store.cart := [];
    }
  }
}
