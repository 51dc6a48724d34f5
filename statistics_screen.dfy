/** The statistics screen: the local list and the remote list are merged with a
    stable first-occurrence dedup by id (local records win), and four figures are
    computed over the merged list. */
module StatisticsScreen {
  import opened Wrappers
  import opened Catalog

  // ---------------------------------------------------------------------------
  // Merge

  /** The list left in the accumulator by the `reduce` that keeps a record only
      when no record with its id has been kept before. */
  function Dedup(all: seq<Product>): (r: seq<Product>)
    ensures |r| <= |all|
    ensures forall p :: p in r ==> p in all
  {
    if all == [] then []
    else
      var kept := Dedup(all[..|all| - 1]);
      if HasId(kept, all[|all| - 1].id) then kept else kept + [all[|all| - 1]]
  }

  /** The first position of an id does not move when records are appended. */
  lemma IndexOfIdExtend(s: seq<Product>, t: seq<Product>, id: int)
    requires HasId(s, id)
    ensures IndexOfId(s + t, id) == IndexOfId(s, id)
  {
    var r := IndexOfId(s, id);
    assert (s + t)[r] == s[r];
  }

  /** An id occurs in the merged list exactly when it occurs in the input. */
  lemma {:induction false} DedupIds(all: seq<Product>)
    ensures forall id :: HasId(Dedup(all), id) <==> HasId(all, id)
  {
    if all != [] {
      var init, last := all[..|all| - 1], all[|all| - 1];
      assert all == init + [last];
      DedupIds(init);
      var kept := Dedup(init);
      forall id | HasId(all, id) ensures HasId(Dedup(all), id) {
        var k :| 0 <= k < |all| && all[k].id == id;
        if k < |init| {
          assert init[k] == all[k];
          assert HasId(init, id);
          var m :| 0 <= m < |kept| && kept[m].id == id;
          if !HasId(kept, last.id) { assert (kept + [last])[m] == kept[m]; }
        } else if !HasId(kept, last.id) {
          assert (kept + [last])[|kept|] == last;
        }
      }
      forall id | HasId(Dedup(all), id) ensures HasId(all, id) {
        var m :| 0 <= m < |Dedup(all)| && Dedup(all)[m].id == id;
        if m < |kept| {
          assert Dedup(all)[m] == kept[m];
          assert HasId(kept, id);
          var k :| 0 <= k < |init| && init[k].id == id;
          assert all[k] == init[k];
        } else {
          assert all[|all| - 1].id == id;
        }
      }
    }
  }

  /** The merged list never holds two records with the same id. */
  lemma {:induction false} DedupUnique(all: seq<Product>)
    ensures UniqueIds(Dedup(all))
  {
    if all != [] {
      var init, last := all[..|all| - 1], all[|all| - 1];
      DedupUnique(init);
      var kept := Dedup(init);
      if !HasId(kept, last.id) {
        var d := kept + [last];
        forall i, j | 0 <= i < j < |d| ensures d[i].id != d[j].id {
          if j == |kept| {
            assert d[i] == kept[i];
          }
        }
      }
    }
  }

  /** Every kept record is the first record of the input with its id: for an id
      present in several places, the earliest one wins. */
  lemma {:induction false} DedupKeepsFirst(all: seq<Product>)
    ensures forall i :: 0 <= i < |Dedup(all)| ==>
      HasId(all, Dedup(all)[i].id) && Dedup(all)[i] == all[IndexOfId(all, Dedup(all)[i].id)]
  {
    if all != [] {
      var init, last := all[..|all| - 1], all[|all| - 1];
      assert all == init + [last];
      DedupKeepsFirst(init);
      DedupIds(init);
      var kept := Dedup(init);
      forall i | 0 <= i < |Dedup(all)|
        ensures HasId(all, Dedup(all)[i].id) && Dedup(all)[i] == all[IndexOfId(all, Dedup(all)[i].id)]
      {
        var p := Dedup(all)[i];
        if i < |kept| {
          assert p == kept[i];
          IndexOfIdExtend(init, [last], p.id);
          var k := IndexOfId(init, p.id);
          assert all[k] == init[k];
        } else {
          assert p == last && !HasId(kept, last.id) && !HasId(init, last.id);
          assert all[|all| - 1] == last;
        }
      }
    }
  }

  /** Records are kept in the order of their first appearance: the merged list is
      the subsequence of the input at the increasing positions of first occurrences. */
  lemma {:induction false} DedupOrdered(all: seq<Product>)
    ensures forall i, j :: 0 <= i < j < |Dedup(all)| ==>
      IndexOfId(all, Dedup(all)[i].id) < IndexOfId(all, Dedup(all)[j].id)
  {
    if all != [] {
      var init, last := all[..|all| - 1], all[|all| - 1];
      assert all == init + [last];
      DedupOrdered(init);
      DedupIds(init);
      var kept := Dedup(init);
      var d := Dedup(all);
      forall i, j | 0 <= i < j < |d|
        ensures IndexOfId(all, d[i].id) < IndexOfId(all, d[j].id)
      {
        assert d[i] == kept[i];
        IndexOfIdExtend(init, [last], d[i].id);
        if j < |kept| {
          assert d[j] == kept[j];
          IndexOfIdExtend(init, [last], d[j].id);
        } else {
          assert d[j] == last && !HasId(init, last.id);
        }
      }
    }
  }

  /** A list whose ids are already distinct comes out of the dedup unchanged. */
  lemma {:induction false} DedupOfUnique(all: seq<Product>)
    requires UniqueIds(all)
    ensures Dedup(all) == all
  {
    if all != [] {
      var init, last := all[..|all| - 1], all[|all| - 1];
      DedupOfUnique(init);
      DedupIds(init);
    }
  }

  /** Deduplicating a merged list again changes nothing. */
  lemma DedupIdempotent(all: seq<Product>)
    ensures Dedup(Dedup(all)) == Dedup(all)
  {
    DedupUnique(all);
    DedupOfUnique(Dedup(all));
  }

  /** What was kept from a list stays, in place, when more records follow it. */
  lemma {:induction false} DedupPrefix(a: seq<Product>, b: seq<Product>)
    ensures |Dedup(a)| <= |Dedup(a + b)| && Dedup(a + b)[..|Dedup(a)|] == Dedup(a)
  {
    if b == [] {
      assert a + b == a;
    } else {
      var b', x := b[..|b| - 1], b[|b| - 1];
      assert (a + b)[..|a + b| - 1] == a + b';
      DedupPrefix(a, b');
    }
  }

  /** Records whose ids were already kept are all discarded. */
  lemma {:induction false} DedupAbsorbs(a: seq<Product>, b: seq<Product>)
    requires forall k :: 0 <= k < |b| ==> HasId(a, b[k].id)
    ensures Dedup(a + b) == Dedup(a)
  {
    if b == [] {
      assert a + b == a;
    } else {
      var b', x := b[..|b| - 1], b[|b| - 1];
      assert (a + b)[..|a + b| - 1] == a + b';
      DedupAbsorbs(a, b');
      DedupIds(a);
    }
  }

  /** The merge of the local list with the remote list. */
  function Reconcile(local: seq<Product>, remote: seq<Product>): (r: seq<Product>)
    ensures |r| <= |local| + |remote|
    ensures forall p :: p in r ==> p in local || p in remote
  {
    Dedup(local + remote)
  }

  /** Merging an already merged list with nothing, or again with the same remote
      list, gives the same list. */
  lemma ReconcileIdempotent(local: seq<Product>, remote: seq<Product>)
    ensures Reconcile(Reconcile(local, remote), []) == Reconcile(local, remote)
    ensures Reconcile(Reconcile(local, remote), remote) == Reconcile(local, remote)
  {
    var merged := Reconcile(local, remote);
    assert merged + [] == merged;
    DedupIdempotent(local + remote);
    DedupIds(local + remote);
    forall k | 0 <= k < |remote| ensures HasId(merged, remote[k].id) {
      assert (local + remote)[|local| + k] == remote[k];
    }
    DedupAbsorbs(merged, remote);
  }

  /** The merged list has distinct ids, loses no id of either input, keeps the
      local record for an id present locally, and starts with the local list
      when the local ids are already distinct. */
  lemma ReconcileProperties(local: seq<Product>, remote: seq<Product>)
    ensures UniqueIds(Reconcile(local, remote))
    ensures forall id :: HasId(Reconcile(local, remote), id) <==> HasId(local, id) || HasId(remote, id)
    ensures forall i :: 0 <= i < |Reconcile(local, remote)| && HasId(local, Reconcile(local, remote)[i].id) ==>
      Reconcile(local, remote)[i] == local[IndexOfId(local, Reconcile(local, remote)[i].id)]
    ensures UniqueIds(local) ==> |local| <= |Reconcile(local, remote)| && Reconcile(local, remote)[..|local|] == local
  {
    var all := local + remote;
    var unique := Reconcile(local, remote);
    DedupUnique(all);
    DedupIds(all);
    forall id ensures HasId(all, id) <==> HasId(local, id) || HasId(remote, id) {
      if HasId(local, id) {
        var k :| 0 <= k < |local| && local[k].id == id;
        assert all[k] == local[k];
      }
      if HasId(remote, id) {
        var k :| 0 <= k < |remote| && remote[k].id == id;
        assert all[|local| + k] == remote[k];
      }
    }
    DedupKeepsFirst(all);
    forall i | 0 <= i < |unique| && HasId(local, unique[i].id)
      ensures unique[i] == local[IndexOfId(local, unique[i].id)]
    {
      IndexOfIdExtend(local, remote, unique[i].id);
    }
    if UniqueIds(local) {
      DedupPrefix(local, remote);
      DedupOfUnique(local);
    }
  }

  /** When the local ids are distinct and every remote id is already local, the
      merge returns the local list as it is: local edits survive a later merge
      with a remote list that renamed or repeated their records. */
  lemma ReconcileKeepsCoveredLocal(local: seq<Product>, remote: seq<Product>)
    requires UniqueIds(local)
    requires forall k :: 0 <= k < |remote| ==> HasId(local, remote[k].id)
    ensures Reconcile(local, remote) == local
  {
    DedupAbsorbs(local, remote);
    DedupOfUnique(local);
  }

  /** `fetchProducts`, merge step: concatenate, then push each record into the
      accumulator unless its id is already there. */
  method MergeProducts(local: seq<Product>, remote: seq<Product>) returns (unique: seq<Product>)
    ensures unique == Reconcile(local, remote)
    ensures UniqueIds(unique)
    ensures forall id :: HasId(unique, id) <==> HasId(local, id) || HasId(remote, id)
    ensures forall i :: 0 <= i < |unique| && HasId(local, unique[i].id) ==>
      unique[i] == local[IndexOfId(local, unique[i].id)]
    ensures UniqueIds(local) ==> |local| <= |unique| && unique[..|local|] == local
  {
    var all := local + remote;
    unique := [];
    var i := 0;
    while i < |all|
      invariant 0 <= i <= |all|
      invariant unique == Dedup(all[..i])
    {
      assert all[..i + 1][..i] == all[..i];
      if !HasId(unique, all[i].id) {
        unique := unique + [all[i]];
      }
      i := i + 1;
    }
    assert all[..|all|] == all;
    ReconcileProperties(local, remote);
  }

  // ---------------------------------------------------------------------------
  // Statistics

  /** The four figures shown on the screen. */
  datatype Statistics = Statistics(productCount: nat, cityCount: nat, outOfStock: nat, totalValue: real)

  /** Number of products with no stock entry at all. */
  function OutOfStockCount(products: seq<Product>): (r: nat)
    ensures r <= |products|
  {
    if products == [] then 0
    else
      OutOfStockCount(products[..|products| - 1])
      + (if products[|products| - 1].stocks == [] then 1 else 0)
  }

  /** The value one stock contributes: its quantity times the product's price. */
  function StockWorth(stock: Stock, price: real): real {
    (stock.quantity as real) * price
  }

  /** Sum of `quantity × price` over the stocks of one product. */
  function StockValue(stocks: seq<Stock>, price: real): (r: real)
    ensures price == 0.0 ==> r == 0.0
  {
    if stocks == [] then 0.0
    else StockValue(stocks[..|stocks| - 1], price) + StockWorth(stocks[|stocks| - 1], price)
  }

  /** Sum of `quantity × price` over every stock of every product. */
  function TotalValue(products: seq<Product>): (r: real)
    ensures OutOfStockCount(products) == |products| ==> r == 0.0
  {
    if products == [] then 0.0
    else
      var p := products[|products| - 1];
      TotalValue(products[..|products| - 1]) + StockValue(p.stocks, p.price)
  }

  /** The cities of a product's stocks. */
  function StockCities(stocks: seq<Stock>): (r: set<string>)
    ensures |r| <= |stocks|
  {
    if stocks == [] then {}
    else StockCities(stocks[..|stocks| - 1]) + {stocks[|stocks| - 1].localisation.city}
  }

  /** The cities of all stocks of all products. */
  function Cities(products: seq<Product>): (r: set<string>)
    ensures OutOfStockCount(products) == |products| ==> r == {}
  {
    if products == [] then {}
    else Cities(products[..|products| - 1]) + StockCities(products[|products| - 1].stocks)
  }

  /** Total quantity held by a list of stocks. */
  function QuantitySum(stocks: seq<Stock>): int {
    if stocks == [] then 0 else stocks[0].quantity + QuantitySum(stocks[1..])
  }

  lemma {:induction false} QuantitySumAppend(stocks: seq<Stock>, s: Stock)
    ensures QuantitySum(stocks + [s]) == QuantitySum(stocks) + s.quantity
  {
    if stocks != [] {
      assert (stocks + [s])[1..] == stocks[1..] + [s];
      QuantitySumAppend(stocks[1..], s);
    }
  }

  /** A product's value is its price times its total quantity over all warehouses. */
  lemma {:induction false} StockValueIsPriceTimesQuantity(stocks: seq<Stock>, price: real)
    ensures StockValue(stocks, price) == price * (QuantitySum(stocks) as real)
  {
    if stocks != [] {
      var init, last := stocks[..|stocks| - 1], stocks[|stocks| - 1];
      assert stocks == init + [last];
      StockValueIsPriceTimesQuantity(init, price);
      QuantitySumAppend(init, last);
    }
  }

  /** Price 10 with stocks of 3 and 5 units is worth 80. */
  lemma TotalValueExample(p: Product)
    requires p.price == 10.0 && |p.stocks| == 2
    requires p.stocks[0].quantity == 3 && p.stocks[1].quantity == 5
    ensures TotalValue([p]) == 80.0
  {
    assert [p][..0] == [];
    assert p.stocks[..1][..0] == [];
    assert StockValue(p.stocks[..1], 10.0) == 30.0;
    assert p.stocks[..|p.stocks| - 1] == p.stocks[..1];
    assert StockValue(p.stocks, 10.0) == 80.0;
  }

  /** Nothing is out of stock exactly when every product has at least one stock entry. */
  lemma {:induction false} NoneOutOfStockIff(products: seq<Product>)
    ensures OutOfStockCount(products) == 0 <==> forall i :: 0 <= i < |products| ==> products[i].stocks != []
  {
    if products != [] {
      var init := products[..|products| - 1];
      NoneOutOfStockIff(init);
      assert forall i :: 0 <= i < |init| ==> init[i] == products[i];
    }
  }

  /** Every product is out of stock exactly when none has a stock entry; a product
      whose stocks all hold 0 units is therefore not counted. */
  lemma {:induction false} AllOutOfStockIff(products: seq<Product>)
    ensures OutOfStockCount(products) == |products| <==> forall i :: 0 <= i < |products| ==> products[i].stocks == []
  {
    if products != [] {
      var init := products[..|products| - 1];
      AllOutOfStockIff(init);
      assert forall i :: 0 <= i < |init| ==> init[i] == products[i];
    }
  }

  lemma {:induction false} StockCitiesIff(stocks: seq<Stock>, city: string)
    ensures city in StockCities(stocks) <==> exists j :: 0 <= j < |stocks| && stocks[j].localisation.city == city
  {
    if stocks != [] {
      var init := stocks[..|stocks| - 1];
      StockCitiesIff(init, city);
      if city in StockCities(init) {
        var j :| 0 <= j < |init| && init[j].localisation.city == city;
        assert stocks[j] == init[j];
      }
      if exists j :: 0 <= j < |stocks| && stocks[j].localisation.city == city {
        var j :| 0 <= j < |stocks| && stocks[j].localisation.city == city;
        if j < |init| { assert init[j] == stocks[j]; }
      }
    }
  }

  /** A city is counted exactly when some stock of some product is located there;
      products without stocks contribute no city. */
  lemma {:induction false} CitiesIff(products: seq<Product>, city: string)
    ensures city in Cities(products) <==>
      exists i, j :: 0 <= i < |products| && 0 <= j < |products[i].stocks| && products[i].stocks[j].localisation.city == city
  {
    if products != [] {
      var init, last := products[..|products| - 1], products[|products| - 1];
      CitiesIff(init, city);
      StockCitiesIff(last.stocks, city);
      if city in Cities(init) {
        var i, j :| 0 <= i < |init| && 0 <= j < |init[i].stocks| && init[i].stocks[j].localisation.city == city;
        assert products[i] == init[i];
      }
      if exists i, j :: 0 <= i < |products| && 0 <= j < |products[i].stocks| && products[i].stocks[j].localisation.city == city {
        var i, j :| 0 <= i < |products| && 0 <= j < |products[i].stocks| && products[i].stocks[j].localisation.city == city;
        if i < |init| { assert init[i] == products[i]; }
      }
    }
  }

  /** One more product in the prefix adds its own figures. */
  lemma ProductStep(data: seq<Product>, i: nat)
    requires i < |data|
    ensures OutOfStockCount(data[..i + 1]) == OutOfStockCount(data[..i]) + (if data[i].stocks == [] then 1 else 0)
    ensures TotalValue(data[..i + 1]) == TotalValue(data[..i]) + StockValue(data[i].stocks, data[i].price)
    ensures Cities(data[..i + 1]) == Cities(data[..i]) + StockCities(data[i].stocks)
  {
    assert data[..i + 1][..i] == data[..i];
  }

  /** One more stock in the prefix adds its city and its value. */
  lemma StockStep(stocks: seq<Stock>, price: real, j: nat)
    requires j < |stocks|
    ensures StockValue(stocks[..j + 1], price) == StockValue(stocks[..j], price) + StockWorth(stocks[j], price)
    ensures StockCities(stocks[..j + 1]) == StockCities(stocks[..j]) + {stocks[j].localisation.city}
  {
    assert stocks[..j + 1][..j] == stocks[..j];
  }

  /** The inner `forEach` of `calculateStatistics`: each stock of one product
      adds its city to the set and `quantity × price` to the running value. */
  method AddStocks(product: Product, cities: set<string>, value: real)
    returns (allCities: set<string>, totalValue: real)
    ensures allCities == cities + StockCities(product.stocks)
    ensures totalValue == value + StockValue(product.stocks, product.price)
  {
    allCities, totalValue := cities, value;
    var j := 0;
    while j < |product.stocks|
      invariant 0 <= j <= |product.stocks|
      invariant totalValue == value + StockValue(product.stocks[..j], product.price)
      invariant allCities == cities + StockCities(product.stocks[..j])
    {
      var stock := product.stocks[j];
      StockStep(product.stocks, product.price, j);
      allCities := allCities + {stock.localisation.city};
      totalValue := totalValue + StockWorth(stock, product.price);
      j := j + 1;
    }
    assert product.stocks[..j] == product.stocks;
  }

  /** `calculateStatistics`: one pass over the products, and for each one a pass
      over its stocks, collecting cities in a set and accumulating the counters. */
  method CalculateStatistics(data: seq<Product>) returns (stats: Statistics)
    ensures stats.productCount == |data|
    ensures stats.cityCount == |Cities(data)|
    ensures stats.outOfStock == OutOfStockCount(data)
    ensures stats.totalValue == TotalValue(data)
  {
    var allCities: set<string> := {};
    var outOfStock: nat := 0;
    var totalValue: real := 0.0;
    var i := 0;
    while i < |data|
      invariant 0 <= i <= |data|
      invariant outOfStock == OutOfStockCount(data[..i])
      invariant totalValue == TotalValue(data[..i])
      invariant allCities == Cities(data[..i])
    {
      var product := data[i];
      ProductStep(data, i);
      if |product.stocks| == 0 {
        outOfStock := outOfStock + 1;
      }
      allCities, totalValue := AddStocks(product, allCities, totalValue);
      i := i + 1;
    }
    assert data[..i] == data;
    stats := Statistics(|data|, |allCities|, outOfStock, totalValue);
  }

  /** `fetchProducts` after both loads succeeded: the stored list (empty when the
      key holds nothing) is merged with the remote list and the statistics are
      computed over the merged list. The merged list is not written back. */
  method FetchProducts(stored: Option<seq<Product>>, remote: seq<Product>)
    returns (products: seq<Product>, stats: Statistics)
    ensures products == Reconcile(StoredOrEmpty(stored), remote)
    ensures UniqueIds(products)
    ensures stats == Statistics(|products|, |Cities(products)|, OutOfStockCount(products), TotalValue(products))
  {
    var localProducts := StoredOrEmpty(stored);
    products := MergeProducts(localProducts, remote);
    stats := CalculateStatistics(products);
  }
}
