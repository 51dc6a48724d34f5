/** The product records that every screen of the inventory client reads and
    writes, and the identity queries they share. */
module Catalog {
  import opened Wrappers

  /** Where a stock is kept (`localisation`). */
  datatype Localisation = Localisation(city: string, latitude: real, longitude: real)

  /** One warehouse's quantity of a product. */
  datatype Stock = Stock(id: int, name: string, quantity: int, localisation: Localisation)

  /** An entry of a product's `editedBy` log; `at` is a `YYYY-MM-DD` date. */
  datatype EditRecord = EditRecord(warehousemanId: int, at: string)

  /** A catalog record. `price` is exact (a real number), `image` is `null` when absent. */
  datatype Product = Product(
    id: int,
    name: string,
    kind: string,
    barcode: string,
    price: real,
    supplier: string,
    image: Option<string>,
    stocks: seq<Stock>,
    editedBy: seq<EditRecord>)

  /** The list kept under the storage key, or the empty list when the key holds nothing. */
  function StoredOrEmpty(stored: Option<seq<Product>>): (r: seq<Product>)
    ensures stored.None? ==> r == []
    ensures stored.Some? ==> r == stored.value
  {
    stored.GetOr([])
  }

  /** Some record of `list` has the id `id`. */
  predicate HasId(list: seq<Product>, id: int) {
    exists k :: 0 <= k < |list| && list[k].id == id
  }

  /** The first position of `list` holding `id`, or -1 when there is none (`findIndex`). */
  function IndexOfId(list: seq<Product>, id: int): (r: int)
    ensures -1 <= r < |list|
    ensures r == -1 <==> !HasId(list, id)
    ensures r >= 0 ==> list[r].id == id && forall k :: 0 <= k < r ==> list[k].id != id
  {
    if list == [] then -1
    else if list[0].id == id then 0
    else
      var r := IndexOfId(list[1..], id);
      if r == -1 then -1 else r + 1
  }

  /** No two records of `list` share an id. */
  predicate UniqueIds(list: seq<Product>) {
    forall i, j :: 0 <= i < j < |list| ==> list[i].id != list[j].id
  }
}
