/** The catalog: the two products seeded on first load and the admin's stock
    update, which clamps at zero and touches only the matching product. */
module Catalog {
  import opened Model

  /** The products written when the "products" key is absent. */
  function DefaultProducts(): seq<Product> {
    [ Product("1", "Records", Records, 120, 50, "Academic Material"),
      Product("2", "Booklets", Booklets, 30, 100, "Academic Material") ]
  }

  predicate StocksNonNegative(products: seq<Product>) {
    forall i :: 0 <= i < |products| ==> products[i].stock >= 0
  }

  predicate DistinctProductIds(products: seq<Product>) {
    forall i, j :: 0 <= i < j < |products| ==> products[i].id != products[j].id
  }

  function Ids(products: seq<Product>): seq<string> {
    seq(|products|, i requires 0 <= i < |products| => products[i].id)
  }

  /** The defaults are two products with distinct ids, a positive price and a
      non-negative stock each, one of each product type, named as the admin
      statistics expect. */
  lemma DefaultsWellFormed()
    ensures var d := DefaultProducts();
      |d| == 2 && DistinctProductIds(d) && StocksNonNegative(d)
      && (forall i :: 0 <= i < |d| ==> d[i].price > 0)
      && d[0].kind == Records && d[0].name == "Records"
      && d[1].kind == Booklets && d[1].name == "Booklets"
  {
    var d := DefaultProducts();
    assert d[0].id[0] != d[1].id[0];
  }

  /** The stock input's value: `parseInt(value) || 0`, where a non-numeric
      entry (NaN, here None) becomes 0. */
  function StockFromInput(parsed: Option<int>): (n: int)
    ensures parsed.None? ==> n == 0
    ensures parsed.Some? ==> n == parsed.value
  {
    match parsed
    case None => 0
    case Some(v) => v
  }

  /** `products.map(p => p.id === id ? {...p, stock: Math.max(0, n)} : p)`. */
  function SetStock(products: seq<Product>, id: string, n: int): (r: seq<Product>)
    ensures |r| == |products|
    ensures forall i :: 0 <= i < |products| && products[i].id != id ==> r[i] == products[i]
    ensures forall i :: 0 <= i < |products| && products[i].id == id ==>
      r[i] == products[i].(stock := Max(0, n))
  {
    if products == [] then []
    else
      var head := if products[0].id == id then products[0].(stock := Max(0, n)) else products[0];
      [head] + SetStock(products[1..], id, n)
  }

  /** A stock update never leaves a negative stock (for any input, numeric or
      not), keeps the ids in their order, and touches no other field. */
  lemma SetStockKeepsCatalog(products: seq<Product>, id: string, parsed: Option<int>)
    requires StocksNonNegative(products)
    ensures var r := SetStock(products, id, StockFromInput(parsed));
      StocksNonNegative(r) && Ids(r) == Ids(products)
      && forall i :: 0 <= i < |r| ==> r[i] == products[i].(stock := r[i].stock)
  {
  }

  /** The matching product's new stock is max(0, n): -1000 on a stock of 5
      gives 0. */
  lemma SetStockClamps(products: seq<Product>, id: string, n: int)
    ensures forall p :: p in SetStock(products, id, n) && p.id == id ==> p.stock == Max(0, n) >= 0
  {
    var r := SetStock(products, id, n);
    forall p | p in r && p.id == id ensures p.stock == Max(0, n) {
      var i :| 0 <= i < |r| && r[i] == p;
    }
  }

  /** Entering the same value twice is entering it once. */
  lemma SetStockIdempotent(products: seq<Product>, id: string, n: int)
    ensures SetStock(SetStock(products, id, n), id, n) == SetStock(products, id, n)
  {
  }
}
