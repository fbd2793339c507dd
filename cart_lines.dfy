/** The cart as a list of lines and the list operations the Cart, Home and
    Products pages perform on it: find by product id, merge-or-append, remove,
    change a quantity with a floor of 1, and the running total. */
module CartLines {
  import opened Model

  /** The line `{...product, quantity: 1}` that a first "add to cart" pushes. */
  function LineFor(p: Product): CartItem {
    CartItem(p.id, p.name, p.kind, p.price, p.stock, p.description, 1)
  }

  predicate HasLine(cart: seq<CartItem>, id: string) {
    exists i :: 0 <= i < |cart| && cart[i].id == id
  }

  /** At most one line per product id. */
  predicate UniqueIds(cart: seq<CartItem>) {
    forall i, j :: 0 <= i < j < |cart| ==> cart[i].id != cart[j].id
  }

  predicate QuantitiesPositive(cart: seq<CartItem>) {
    forall i :: 0 <= i < |cart| ==> cart[i].quantity >= 1
  }

  /** What the storefront keeps true of every cart it writes. */
  predicate WellFormed(cart: seq<CartItem>) {
    UniqueIds(cart) && QuantitiesPositive(cart)
  }

  function Bump(line: CartItem): CartItem {
    line.(quantity := line.quantity + 1)
  }

  /** Index of the first line with product id `id` (what `cart.find` finds),
      or |cart| when there is none. */
  function FirstIndex(cart: seq<CartItem>, id: string): (k: nat)
    ensures k <= |cart|
    ensures forall j :: 0 <= j < k ==> cart[j].id != id
    ensures k < |cart| ==> cart[k].id == id
    ensures k == |cart| <==> !HasLine(cart, id)
  {
    if cart == [] then 0
    else if cart[0].id == id then 0
    else 1 + FirstIndex(cart[1..], id)
  }

  /** `cart.find(item => item.id === id)` as a loop over the lines. */
  method FindLine(cart: seq<CartItem>, id: string) returns (k: nat)
    ensures k <= |cart|
    ensures forall j :: 0 <= j < k ==> cart[j].id != id
    ensures k < |cart| ==> cart[k].id == id
  {
    k := 0;
    while k < |cart| && cart[k].id != id
      invariant k <= |cart|
      invariant forall j :: 0 <= j < k ==> cart[j].id != id
    {
      k := k + 1;
    }
  }

  /** The cart after "add to cart": the first line with the product's id gets
      one more unit, otherwise a new line with quantity 1 goes at the end. */
  function AddLine(cart: seq<CartItem>, p: Product): seq<CartItem> {
    if cart == [] then [LineFor(p)]
    else if cart[0].id == p.id then [Bump(cart[0])] + cart[1..]
    else [cart[0]] + AddLine(cart[1..], p)
  }

  /** The in-place increment at the found index, or the push, is AddLine. */
  lemma {:induction false} AddLineAt(cart: seq<CartItem>, p: Product)
    ensures var k := FirstIndex(cart, p.id);
      AddLine(cart, p) == if k < |cart| then cart[k := Bump(cart[k])] else cart + [LineFor(p)]
  {
    if cart != [] && cart[0].id != p.id {
      AddLineAt(cart[1..], p);
      assert cart == [cart[0]] + cart[1..];
    }
  }

  /** An existing line rises by exactly one unit; the length and every other
      line are unchanged. */
  lemma AddLineExisting(cart: seq<CartItem>, p: Product)
    requires HasLine(cart, p.id)
    ensures var r, k := AddLine(cart, p), FirstIndex(cart, p.id);
      |r| == |cart| && r[k].quantity == cart[k].quantity + 1 && r[k] == cart[k].(quantity := r[k].quantity)
      && forall j :: 0 <= j < |cart| && j != k ==> r[j] == cart[j]
  {
    AddLineAt(cart, p);
  }

  /** Without a line for the product, exactly one line is appended at the end,
      with the product's fields and quantity 1. */
  lemma AddLineNew(cart: seq<CartItem>, p: Product)
    requires !HasLine(cart, p.id)
    ensures AddLine(cart, p) == cart + [LineFor(p)]
  {
    AddLineAt(cart, p);
  }

  /** The lines for product `id` (the complement of RemoveLine). */
  function LinesFor(cart: seq<CartItem>, id: string): seq<CartItem> {
    if cart == [] then []
    else (if cart[0].id == id then [cart[0]] else []) + LinesFor(cart[1..], id)
  }

  /** Adding a product touches only the lines for its id, and on those lines it
      acts as adding to a cart that holds nothing else. */
  lemma {:induction false} AddLineLinesFor(cart: seq<CartItem>, p: Product, id: string)
    ensures LinesFor(AddLine(cart, p), id)
         == if id == p.id then AddLine(LinesFor(cart, id), p) else LinesFor(cart, id)
  {
    if cart == [] {
      assert LinesFor([LineFor(p)], id) == (if id == p.id then [LineFor(p)] else []) + LinesFor([], id);
    } else if cart[0].id == p.id {
      var r := AddLine(cart, p);
      assert r[0] == Bump(cart[0]) && r[1..] == cart[1..];
      var tail := LinesFor(cart[1..], id);
      assert LinesFor(r, id) == (if id == p.id then [Bump(cart[0])] else []) + tail;
      assert LinesFor(cart, id) == (if id == p.id then [cart[0]] else []) + tail;
      if id == p.id {
        assert AddLine([cart[0]] + tail, p) == [Bump(cart[0])] + tail;
      }
    } else {
      var r := AddLine(cart, p);
      assert r[0] == cart[0] && r[1..] == AddLine(cart[1..], p);
      AddLineLinesFor(cart[1..], p, id);
      var head := if cart[0].id == id then [cart[0]] else [];
      assert LinesFor(r, id) == head + LinesFor(AddLine(cart[1..], p), id);
      assert LinesFor(cart, id) == head + LinesFor(cart[1..], id);
      if id == p.id {
        assert head == [];
        assert head + LinesFor(cart[1..], id) == LinesFor(cart[1..], id);
        assert head + LinesFor(AddLine(cart[1..], p), id) == LinesFor(AddLine(cart[1..], p), id);
      }
    }
  }

  /** `n` successive additions of the same product. */
  function AddTimes(cart: seq<CartItem>, p: Product, n: nat): seq<CartItem> {
    if n == 0 then cart else AddLine(AddTimes(cart, p, n - 1), p)
  }

  lemma {:induction false} LinesForAddTimes(cart: seq<CartItem>, p: Product, n: nat)
    ensures LinesFor(AddTimes(cart, p, n), p.id) == AddTimes(LinesFor(cart, p.id), p, n)
  {
    if n > 0 {
      var before := AddTimes(cart, p, n - 1);
      LinesForAddTimes(cart, p, n - 1);
      AddLineLinesFor(before, p, p.id);
      calc {
        LinesFor(AddTimes(cart, p, n), p.id);
        LinesFor(AddLine(before, p), p.id);
        AddLine(LinesFor(before, p.id), p);
        AddLine(AddTimes(LinesFor(cart, p.id), p, n - 1), p);
        AddTimes(LinesFor(cart, p.id), p, n);
      }
    }
  }

  /** After n >= 1 additions of a product to a cart without it there is exactly
      one line for its id, and its quantity is n. */
  lemma {:induction false} AddTimesCountsAdditions(cart: seq<CartItem>, p: Product, n: nat)
    requires !HasLine(cart, p.id) && n >= 1
    ensures LinesFor(AddTimes(cart, p, n), p.id) == [LineFor(p).(quantity := n)]
  {
    LinesForAddTimes(cart, p, n);
    HasLineIffLinesFor(cart, p.id);
    AddTimesFromEmpty(p, n);
  }

  lemma {:induction false} AddTimesFromEmpty(p: Product, n: nat)
    requires n >= 1
    ensures AddTimes([], p, n) == [LineFor(p).(quantity := n)]
  {
    if n > 1 {
      AddTimesFromEmpty(p, n - 1);
    }
  }

  lemma UniqueIdsCons(x: CartItem, s: seq<CartItem>)
    requires UniqueIds(s) && !HasLine(s, x.id)
    ensures UniqueIds([x] + s)
  {
    var t := [x] + s;
    forall i, j | 0 <= i < j < |t| ensures t[i].id != t[j].id {
      if i == 0 {
        assert t[j] == s[j - 1];
      } else {
        assert t[i] == s[i - 1] && t[j] == s[j - 1];
      }
    }
  }

  lemma UniqueIdsTail(s: seq<CartItem>)
    requires UniqueIds(s) && s != []
    ensures UniqueIds(s[1..]) && !HasLine(s[1..], s[0].id)
  {
    forall i | 0 <= i < |s| - 1 ensures s[1..][i].id != s[0].id {
      assert s[1..][i] == s[i + 1];
    }
  }

  /** A cart whose ids were unique keeps them unique after an addition. */
  lemma {:induction false} AddLineKeepsUniqueIds(cart: seq<CartItem>, p: Product)
    requires UniqueIds(cart)
    ensures UniqueIds(AddLine(cart, p))
  {
    if cart == [] {
    } else {
      UniqueIdsTail(cart);
      if cart[0].id == p.id {
        UniqueIdsCons(Bump(cart[0]), cart[1..]);
      } else {
        AddLineKeepsUniqueIds(cart[1..], p);
        AddLineIds(cart[1..], p, cart[0].id);
        UniqueIdsCons(cart[0], AddLine(cart[1..], p));
      }
    }
  }

  /** AddLine introduces no product id other than the added product's. */
  lemma {:induction false} AddLineIds(cart: seq<CartItem>, p: Product, id: string)
    requires id != p.id
    ensures HasLine(AddLine(cart, p), id) <==> HasLine(cart, id)
  {
    AddLineLinesFor(cart, p, id);
    HasLineIffLinesFor(cart, id);
    HasLineIffLinesFor(AddLine(cart, p), id);
  }

  lemma {:induction false} LinesForMembers(cart: seq<CartItem>, id: string)
    ensures forall l :: l in LinesFor(cart, id) <==> l in cart && l.id == id
  {
    if cart != [] {
      LinesForMembers(cart[1..], id);
      assert cart == [cart[0]] + cart[1..];
    }
  }

  lemma HasLineIffLinesFor(cart: seq<CartItem>, id: string)
    ensures HasLine(cart, id) <==> LinesFor(cart, id) != []
  {
    LinesForMembers(cart, id);
    if HasLine(cart, id) {
      var i :| 0 <= i < |cart| && cart[i].id == id;
      assert cart[i] in LinesFor(cart, id);
    }
    if LinesFor(cart, id) != [] {
      assert LinesFor(cart, id)[0] in cart;
    }
  }

  /** Additions keep every quantity at least 1. */
  lemma {:induction false} AddLineKeepsQuantities(cart: seq<CartItem>, p: Product)
    requires QuantitiesPositive(cart)
    ensures QuantitiesPositive(AddLine(cart, p))
  {
    AddLineAt(cart, p);
  }

  /** `cart.filter(item => item.id !== id)`. */
  function RemoveLine(cart: seq<CartItem>, id: string): (r: seq<CartItem>)
    ensures forall l :: l in r <==> l in cart && l.id != id
    ensures |r| <= |cart|
  {
    if cart == [] then []
    else (if cart[0].id != id then [cart[0]] else []) + RemoveLine(cart[1..], id)
  }

  /** Removal keeps the relative order: it distributes over concatenation. */
  lemma {:induction false} RemoveLineAppend(a: seq<CartItem>, b: seq<CartItem>, id: string)
    ensures RemoveLine(a + b, id) == RemoveLine(a, id) + RemoveLine(b, id)
  {
    if a != [] {
      assert (a + b)[0] == a[0] && (a + b)[1..] == a[1..] + b;
      RemoveLineAppend(a[1..], b, id);
    } else {
      assert a + b == b;
    }
  }

  /** Removing an id the cart does not hold leaves it as it is. */
  lemma {:induction false} RemoveLineAbsent(cart: seq<CartItem>, id: string)
    requires !HasLine(cart, id)
    ensures RemoveLine(cart, id) == cart
  {
    if cart != [] {
      forall i | 0 <= i < |cart| - 1 ensures cart[1..][i].id != id {
        assert cart[1..][i] == cart[i + 1];
      }
      RemoveLineAbsent(cart[1..], id);
      assert cart == [cart[0]] + cart[1..];
    }
  }

  /** Removing twice is removing once. */
  lemma RemoveLineIdempotent(cart: seq<CartItem>, id: string)
    ensures RemoveLine(RemoveLine(cart, id), id) == RemoveLine(cart, id)
  {
    var r := RemoveLine(cart, id);
    forall i | 0 <= i < |r| ensures r[i].id != id {
      assert r[i] in r;
    }
    RemoveLineAbsent(r, id);
  }

  /** A removal keeps ids unique and quantities positive. */
  lemma {:induction false} RemoveLineKeepsWellFormed(cart: seq<CartItem>, id: string)
    requires WellFormed(cart)
    ensures WellFormed(RemoveLine(cart, id))
  {
    var r := RemoveLine(cart, id);
    if cart != [] {
      UniqueIdsTail(cart);
      RemoveLineKeepsWellFormed(cart[1..], id);
      var rest := RemoveLine(cart[1..], id);
      if cart[0].id != id {
        forall i | 0 <= i < |rest| ensures rest[i].id != cart[0].id {
          assert rest[i] in rest;
          var j :| 0 <= j < |cart[1..]| && cart[1..][j] == rest[i];
          assert cart[j + 1] == rest[i];
        }
        UniqueIdsCons(cart[0], rest);
      }
      assert forall i :: 0 <= i < |r| ==> r[i] in cart;
    }
  }

  /** `Math.max(1, quantity + change)` applied to the lines with id `id`, every
      other line kept. */
  function ChangeQuantity(cart: seq<CartItem>, id: string, change: int): (r: seq<CartItem>)
    ensures |r| == |cart|
    ensures forall i :: 0 <= i < |cart| && cart[i].id != id ==> r[i] == cart[i]
    ensures forall i :: 0 <= i < |cart| && cart[i].id == id ==>
      r[i] == cart[i].(quantity := Max(1, cart[i].quantity + change))
  {
    if cart == [] then []
    else
      var head := if cart[0].id == id then cart[0].(quantity := Max(1, cart[0].quantity + change)) else cart[0];
      [head] + ChangeQuantity(cart[1..], id, change)
  }

  /** The +/- controls keep ids unique and never leave a quantity below 1. */
  lemma ChangeQuantityKeepsWellFormed(cart: seq<CartItem>, id: string, change: int)
    requires WellFormed(cart)
    ensures WellFormed(ChangeQuantity(cart, id, change))
  {
  }

  /** The quantity of the changed line never drops below 1, whatever the change. */
  lemma ChangeQuantityFloor(cart: seq<CartItem>, id: string, change: int)
    ensures forall l :: l in ChangeQuantity(cart, id, change) && l.id == id ==> l.quantity >= 1
  {
    var r := ChangeQuantity(cart, id, change);
    forall l | l in r && l.id == id ensures l.quantity >= 1 {
      var i :| 0 <= i < |r| && r[i] == l;
    }
  }

  /** "-" undoes "+" on a cart whose quantities are at least 1. */
  lemma PlusThenMinus(cart: seq<CartItem>, id: string)
    requires QuantitiesPositive(cart)
    ensures ChangeQuantity(ChangeQuantity(cart, id, 1), id, -1) == cart
  {
  }

  /** `cart.reduce((total, item) => total + item.price * item.quantity, 0)`. */
  function TotalPrice(cart: seq<CartItem>): int {
    if cart == [] then 0 else cart[0].price * cart[0].quantity + TotalPrice(cart[1..])
  }

  lemma {:induction false} TotalPriceAppend(a: seq<CartItem>, b: seq<CartItem>)
    ensures TotalPrice(a + b) == TotalPrice(a) + TotalPrice(b)
  {
    if a != [] {
      assert (a + b)[0] == a[0] && (a + b)[1..] == a[1..] + b;
      TotalPriceAppend(a[1..], b);
    } else {
      assert a + b == b;
    }
  }

  /** One addition raises the total by the price of one unit of the product,
      provided the cart prices that product as the catalog does. */
  lemma {:induction false} TotalPriceAddLine(cart: seq<CartItem>, p: Product)
    requires forall l :: l in cart && l.id == p.id ==> l.price == p.price
    ensures TotalPrice(AddLine(cart, p)) == TotalPrice(cart) + p.price
  {
    if cart == [] {
    } else if cart[0].id == p.id {
      assert [Bump(cart[0])] + cart[1..] == AddLine(cart, p);
      calc {
        TotalPrice(AddLine(cart, p));
        p.price * (cart[0].quantity + 1) + TotalPrice(cart[1..]);
        { assert p.price * (cart[0].quantity + 1) == p.price * cart[0].quantity + p.price; }
        TotalPrice(cart) + p.price;
      }
    } else {
      assert forall l :: l in cart[1..] ==> l in cart;
      TotalPriceAddLine(cart[1..], p);
      assert AddLine(cart, p)[1..] == AddLine(cart[1..], p);
    }
  }

  /** The total splits into the lines for `id` and the lines that removing
      `id` keeps. */
  lemma {:induction false} TotalPriceSplit(cart: seq<CartItem>, id: string)
    ensures TotalPrice(cart) == TotalPrice(LinesFor(cart, id)) + TotalPrice(RemoveLine(cart, id))
  {
    if cart != [] {
      TotalPriceSplit(cart[1..], id);
      var h := if cart[0].id == id then [cart[0]] else [];
      TotalPriceAppend(h, LinesFor(cart[1..], id));
      var g := if cart[0].id != id then [cart[0]] else [];
      TotalPriceAppend(g, RemoveLine(cart[1..], id));
    }
  }
}
