/** The product list screen: restocking or drawing down a product, and the
    colour that classifies its stock level. */
module ProductListScreen {
  import opened Catalog
  import opened ProductSlice

  // ---------------------------------------------------------------------------
  // Stock adjustment

  /** The stocks of a product after `change` is added to every stock whose id is
      the first stock's id. */
  function AdjustStocks(stocks: seq<Stock>, change: int): (r: seq<Stock>)
    ensures |r| == |stocks|
  {
    if stocks == [] then []
    else
      seq(|stocks|, j requires 0 <= j < |stocks| =>
        if stocks[j].id == stocks[0].id then stocks[j].(quantity := stocks[j].quantity + change)
        else stocks[j])
  }

  /** A product after the adjustment: only the product with id `productId` changes. */
  function AdjustProduct(p: Product, productId: int, change: int): (r: Product)
    ensures r == p.(stocks := r.stocks) && |r.stocks| == |p.stocks|
    ensures p.id != productId || p.stocks == [] ==> r == p
  {
    if p.id == productId then p.(stocks := AdjustStocks(p.stocks, change)) else p
  }

  /** The list after the adjustment. */
  function AdjustQuantity(products: seq<Product>, productId: int, change: int): (r: seq<Product>)
    ensures |r| == |products|
  {
    seq(|products|, i requires 0 <= i < |products| => AdjustProduct(products[i], productId, change))
  }

  /** What changes and what does not: other products are untouched; in the
      matching product only the quantities of the stocks sharing the first
      stock's id move, each by exactly `change` (no floor at zero), and stock
      count, order, ids, names and places are kept. */
  lemma AdjustQuantityFrame(products: seq<Product>, productId: int, change: int, i: int, j: int)
    requires 0 <= i < |products|
    ensures var r := AdjustQuantity(products, productId, change);
      && (products[i].id != productId ==> r[i] == products[i])
      && (products[i].id == productId ==>
            && r[i] == products[i].(stocks := r[i].stocks)
            && |r[i].stocks| == |products[i].stocks|
            && (0 <= j < |products[i].stocks| ==>
                  var s, s' := products[i].stocks[j], r[i].stocks[j];
                  && s' == s.(quantity := s'.quantity)
                  && s'.quantity == if s.id == products[i].stocks[0].id then s.quantity + change else s.quantity))
  {
  }

  /** An unknown id, or a matching product without stocks, leaves the list as it was. */
  lemma AdjustQuantityNoOp(products: seq<Product>, productId: int, change: int)
    requires forall i :: 0 <= i < |products| && products[i].id == productId ==> products[i].stocks == []
    ensures AdjustQuantity(products, productId, change) == products
  {
    var r := AdjustQuantity(products, productId, change);
    forall i | 0 <= i < |products| ensures r[i] == products[i] {
      if products[i].id == productId {
        assert r[i] == products[i].(stocks := []);
      }
    }
  }

  /** Adjusting by `change` and then by `-change` (restock, then draw-down)
      restores the list. */
  lemma AdjustQuantityRoundTrip(products: seq<Product>, productId: int, change: int)
    ensures AdjustQuantity(AdjustQuantity(products, productId, change), productId, -change) == products
  {
    var once := AdjustQuantity(products, productId, change);
    var twice := AdjustQuantity(once, productId, -change);
    forall i | 0 <= i < |products| ensures twice[i] == products[i] {
      var p := products[i];
      if p.id == productId && p.stocks != [] {
        var st := AdjustStocks(p.stocks, change);
        assert st[0].id == p.stocks[0].id;
        var back := AdjustStocks(st, -change);
        assert back == p.stocks;
      }
    }
  }

  /** `updateProductQuantity`, the `map` over products and, in the matching
      product, over its stocks. */
  method UpdateProductQuantity(products: seq<Product>, productId: int, change: int)
    returns (updatedProducts: seq<Product>)
    ensures updatedProducts == AdjustQuantity(products, productId, change)
  {
    updatedProducts := [];
    var i := 0;
    while i < |products|
      invariant 0 <= i <= |products|
      invariant updatedProducts == AdjustQuantity(products, productId, change)[..i]
    {
      var product := products[i];
      if product.id == productId {
        var updatedStocks: seq<Stock> := [];
        var j := 0;
        while j < |product.stocks|
          invariant 0 <= j <= |product.stocks|
          invariant updatedStocks == AdjustStocks(product.stocks, change)[..j]
        {
          var stock := product.stocks[j];
          if stock.id == product.stocks[0].id {
            stock := stock.(quantity := stock.quantity + change);
          }
          updatedStocks := updatedStocks + [stock];
          j := j + 1;
        }
        assert updatedStocks == AdjustStocks(product.stocks, change);
        product := product.(stocks := updatedStocks);
      }
      assert product == AdjustQuantity(products, productId, change)[i];
      updatedProducts := updatedProducts + [product];
      i := i + 1;
    }
  }

  /** `updateProductQuantity` as a whole: the adjusted list is published to the
      store and is the list handed to storage. */
  method UpdateProductQuantityInStore(store: ProductStore, productId: int, change: int)
    returns (saved: seq<Product>)
    modifies store
    ensures saved == AdjustQuantity(old(store.list), productId, change)
    ensures store.list == saved
  {
    var updated := UpdateProductQuantity(store.list, productId, change);
    store.SetProducts(updated);
    saved := updated;
  }

  // ---------------------------------------------------------------------------
  // Stock-level colour

  datatype Color = Red | Yellow | Green

  /** `getStockColor` */
  function StockColor(quantity: int): (c: Color)
    ensures c == Red <==> quantity == 0
    ensures c == Yellow <==> quantity != 0 && quantity < 10
    ensures c == Green <==> quantity >= 10
  {
    if quantity == 0 then Red
    else if quantity < 10 then Yellow
    else Green
  }

  /** The quantity a product is classified by: its first stock's, or 0 without stocks. */
  function RepresentativeQuantity(p: Product): (q: int)
    ensures p.stocks == [] ==> q == 0
    ensures p.stocks != [] ==> q == p.stocks[0].quantity
  {
    if p.stocks == [] then 0 else p.stocks[0].quantity
  }

  /** The colour shown for a product: red without stocks, otherwise its first
      stock's quantity classified. */
  lemma ProductColor(p: Product)
    ensures p.stocks == [] ==> StockColor(RepresentativeQuantity(p)) == Red
    ensures p.stocks != [] ==> StockColor(RepresentativeQuantity(p)) == StockColor(p.stocks[0].quantity)
  {
  }

  /** Restocking or drawing down a product moves its representative quantity by
      exactly `change` (when it has stocks). */
  lemma AdjustMovesRepresentative(p: Product, change: int)
    requires p.stocks != []
    ensures RepresentativeQuantity(AdjustProduct(p, p.id, change)) == RepresentativeQuantity(p) + change
  {
  }
}
