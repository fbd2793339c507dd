/** Sessions as a caller of the handlers sees them. Every assertion follows
    from the handlers' contracts alone. */
module Walkthrough {
  import opened Model
  import opened CartLines
  import opened Storefront

  /** Register, then a login with a wrong and with the right password. */
  method RegisterThenLogin(now: nat, today: Date) {
    var store := new Store();
    var reg := store.Register("Asha", "21CS01", "asha@x.edu", "p1", now, today);
    assert reg.Ok? && store.users == [reg.value];
    assert store.users[0].password == "p1";

    var bad := store.Login("asha@x.edu", "p2");
    assert bad == Err(InvalidCredentials, None);
    var good := store.Login("asha@x.edu", "p1");
    assert good.Ok? by {
      assert Accounts.Matches(store.users[0], "asha@x.edu", "p1");
    }
  }

  /** A signed-in student adds Records twice and checks out with cash. */
  method AddTwiceThenCheckout(now: nat, today: Date) {
    var store := new Store();
    var reg := store.Register("Asha", "21CS01", "asha@x.edu", "p1", now, today);
    assert store.currentUser == Some(reg.value) && reg.value.email != AdminEmail;
    var records := Product("1", "Records", Records, 120, 50, "Academic Material");

    var a1 := store.AddToCartFromProducts(records);
    assert store.cart == [LineFor(records)];
    var a2 := store.AddToCartFromProducts(records);
    assert store.cart == [LineFor(records).(quantity := 2)];

    var page := new CartPage(store);
    var checkout := page.HandleCheckout();
    assert checkout.Ok? && page.showCheckout;
    page.ChoosePayment(Cash);
    var code := page.ConfirmOrder(now, today);
    assert |store.orders| == 1 && store.cart == [];
    assert store.orders[0].total == 240 && store.orders[0].paymentMethod == Cash;
    assert store.orders[0].status == "Pending";
  }
}
